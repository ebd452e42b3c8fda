/** Process memory diagnostics (lib/memory-diagnostics.ts): three counters of operations that overlap in any way. */
module MemoryDiagnostics {
  import opened Prelude

  datatype Kind = Upload | ImageTransform | S3Operation

  datatype Counters = Counters(activeUploads: nat, activeImageTransforms: nat, activeS3Operations: nat)

  /** A number read from the outside, which may be infinite or no number. */
  datatype Number = Finite(value: real) | NotFinite

  datatype Usage = Usage(rss: Number, heapTotal: Number, heapUsed: Number, external: Number, arrayBuffers: Number)

  /** How a call ends: it returns a value or throws. */
  datatype Completion<+T> = Returns(value: T) | Throws(error: nat)

  /** Statements one after the other: what follows a throw is skipped. */
  function Then<A, B>(first: Completion<A>, next: A -> Completion<B>): Completion<B> {
    match first
    case Returns(value) => next(value)
    case Throws(error) => Throws(error)
  }

  /** `try { body } catch { handler }`. */
  function Catch<T>(body: Completion<T>, handler: Completion<T>): Completion<T> {
    if body.Throws? then handler else body
  }

  /** `try { body } finally { last }`: a throw of the last block takes the place of how the body ended. */
  function Finally<T>(body: Completion<T>, last: Completion<()>): Completion<T> {
    match last
    case Returns(_) => body
    case Throws(error) => Throws(error)
  }

  /** How the clock, the memory reader and the logger end if they are called. */
  datatype Surroundings = Surroundings(clock: Completion<Number>, memory: Completion<Usage>, logger: Completion<()>)

  datatype Moment = Before | After
  datatype Outcome = Completed | Failed

  datatype Snapshot = Snapshot(
    kind: Kind, moment: Moment, mib: seq<real>, counters: Counters, outcome: Option<Outcome>, durationMs: Option<real>)

  const BYTES_PER_MIB: real := 1048576.0

  function ToMiB(bytes: Number): Option<real> {
    if bytes.NotFinite? || bytes.value < 0.0 then None
    else Some(Round(bytes.value / BYTES_PER_MIB * 10.0) as real / 10.0)
  }

  function FiniteDuration(value: Option<Number>): Option<real> {
    if value.None? || value.value.NotFinite? || value.value.value < 0.0 then None
    else Some(Round(value.value.value * 1000.0) as real / 1000.0)
  }

  function Count(c: Counters, kind: Kind): nat {
    match kind
    case Upload => c.activeUploads
    case ImageTransform => c.activeImageTransforms
    case S3Operation => c.activeS3Operations
  }

  function WithCount(c: Counters, kind: Kind, count: nat): Counters {
    match kind
    case Upload => c.(activeUploads := count)
    case ImageTransform => c.(activeImageTransforms := count)
    case S3Operation => c.(activeS3Operations := count)
  }

  function Started(c: Counters, kind: Kind): Counters {
    WithCount(c, kind, if Count(c, kind) < MAX_SAFE_INTEGER then Count(c, kind) + 1 else MAX_SAFE_INTEGER)
  }

  function Ended(c: Counters, kind: Kind): Counters {
    WithCount(c, kind, if Count(c, kind) > 0 then Count(c, kind) - 1 else 0)
  }

  function Sizes(usage: Usage): seq<Number> {
    [usage.rss, usage.heapTotal, usage.heapUsed, usage.external, usage.arrayBuffers]
  }

  /** The snapshot for some memory usage; there is none when a size makes no sense. */
  function Describe(c: Counters, kind: Kind, moment: Moment, outcome: Option<Outcome>, duration: Option<Number>,
                    usage: Usage): Option<Snapshot> {
    var read := [ToMiB(usage.rss), ToMiB(usage.heapTotal), ToMiB(usage.heapUsed), ToMiB(usage.external),
                 ToMiB(usage.arrayBuffers)];
    if None in read then None
    else
      Some(Snapshot(kind, moment, seq(5, i requires 0 <= i < 5 => GetOr(read[i], 0.0)), c, outcome,
                    FiniteDuration(duration)))
  }

  /** `captureSnapshot`: the reader within one `try`, the logger within another. */
  function Capture(enabled: bool, c: Counters, kind: Kind, moment: Moment, outcome: Option<Outcome>,
                   duration: Option<Number>, around: Surroundings): Completion<Option<Snapshot>> {
    if !enabled then Returns(None)
    else
      Catch(
        Then(around.memory, (usage: Usage) =>
          var snapshot := Describe(c, kind, moment, outcome, duration, usage);
          if snapshot.None? then Returns(None)
          else Then(Catch(around.logger, Returns(())), (_: ()) => Returns(snapshot))),
        Returns(None))
  }

  /** The snapshot that this hands to the logger, whether the logger then throws or not. */
  function Handed(enabled: bool, c: Counters, kind: Kind, moment: Moment, outcome: Option<Outcome>,
                  duration: Option<Number>, around: Surroundings): Option<Snapshot> {
    if !enabled || around.memory.Throws? then None
    else Describe(c, kind, moment, outcome, duration, around.memory.value)
  }

  // ----- overlapping operations

  /** One call of `withOperation` or `withCounter` while its operation runs. */
  datatype Flight = Flight(kind: Kind, captures: bool, startedAt: Option<real>)

  /**
   For each call of `runOperation`: how often it called its operation, how the operation ended, and how the call itself
   did, which is all its caller sees. The log also says which call each snapshot is of.
   */
  datatype Process = Process(
    enabled: bool, counters: Counters, begun: set<nat>, flying: map<nat, Flight>, calls: map<nat, nat>,
    given: map<nat, Completion<nat>>, results: map<nat, Completion<nat>>, logged: seq<Entry>)

  datatype Entry = Entry(call: nat, snapshot: Snapshot)

  datatype Event =
    | Starts(id: nat, kind: Kind, captures: bool, around: Surroundings)
    | Ends(id: nat, given: Completion<nat>, around: Surroundings)

  function StartedAt(clock: Completion<Number>): Completion<Option<real>> {
    Catch(
      Then(clock, (now: Number) => Returns(if now.Finite? then Some(now.value) else None)),
      Returns(None))
  }

  /** The statements of the `try` block of `runOperation` before the operation. */
  function Opening(c: Counters, kind: Kind, captures: bool, around: Surroundings): Completion<Option<real>> {
    if !captures then Returns(None)
    else
      Then(StartedAt(around.clock), (startedAt: Option<real>) =>
        Then(Capture(true, c, kind, Before, None, None, around), (_: Option<Snapshot>) => Returns(startedAt)))
  }

  function Elapsed(startedAt: Option<real>, clock: Completion<Number>): Completion<Option<Number>> {
    Catch(
      if startedAt.None? then Returns(None)
      else
        Then(clock, (now: Number) =>
          Returns(Some(if now.Finite? then Finite(now.value - startedAt.value) else NotFinite))),
      Returns(None))
  }

  /** Its `finally` block after the counter. */
  function Closing(c: Counters, flight: Flight, outcome: Outcome, around: Surroundings): Completion<()> {
    if !flight.captures then Returns(())
    else
      Then(Elapsed(flight.startedAt, around.clock), (duration: Option<Number>) =>
        Then(Capture(true, c, flight.kind, After, Some(outcome), duration, around), (_: Option<Snapshot>) => Returns(())))
  }

  /** The snapshots that the logger was called with before and after the operation. */
  function HandedBefore(c: Counters, kind: Kind, captures: bool, around: Surroundings): Option<Snapshot> {
    if !captures || StartedAt(around.clock).Throws? then None
    else Handed(true, c, kind, Before, None, None, around)
  }

  function HandedAfter(c: Counters, flight: Flight, outcome: Outcome, around: Surroundings): Option<Snapshot> {
    var duration := Elapsed(flight.startedAt, around.clock);
    if !flight.captures || duration.Throws? then None
    else Handed(true, c, flight.kind, After, Some(outcome), duration.value, around)
  }

  function Noted(id: nat, handed: Option<Snapshot>): seq<Entry> {
    if handed.Some? then [Entry(id, handed.value)] else []
  }

  function Call(p: Process, id: nat, flight: Flight): Process {
    p.(flying := p.flying[id := flight], calls := p.calls[id := (if id in p.calls then p.calls[id] else 0) + 1])
  }

  /** The end of `runOperation`, whose `try` block ended with `body`. */
  function Finish(p: Process, id: nat, flight: Flight, body: Completion<nat>, around: Surroundings): Process {
    var counters := Ended(p.counters, flight.kind);
    var outcome := if body.Returns? then Completed else Failed;
    p.(flying := p.flying - {id}, counters := counters,
       logged := p.logged + Noted(id, HandedAfter(counters, flight, outcome, around)),
       results := p.results[id := Finally(body, Closing(counters, flight, outcome, around))])
  }

  /** `runOperation` up to its `await`; a throw before the operation would skip it and go to the `finally` block. */
  function Start(p: Process, id: nat, kind: Kind, captures: bool, around: Surroundings): Process {
    if id in p.begun then p
    else
      var begun := p.(begun := p.begun + {id});
      if !p.enabled then Call(begun, id, Flight(kind, false, None))
      else
        var counters := Started(p.counters, kind);
        var counted := begun.(counters := counters,
                              logged := p.logged + Noted(id, HandedBefore(counters, kind, captures, around)));
        match Opening(counters, kind, captures, around)
        case Returns(startedAt) => Call(counted, id, Flight(kind, captures, startedAt))
        case Throws(error) => Finish(counted, id, Flight(kind, captures, None), Throws(error), around)
  }

  /** The rest of it, once the operation has returned or thrown. */
  function End(p: Process, id: nat, given: Completion<nat>, around: Surroundings): Process {
    if id !in p.flying then p
    else
      var told := p.(given := p.given[id := given]);
      if !p.enabled then told.(flying := p.flying - {id}, results := p.results[id := given])
      else Finish(told, id, p.flying[id], given, around)
  }

  function Step(p: Process, e: Event): Process {
    match e
    case Starts(id, kind, captures, around) => Start(p, id, kind, captures, around)
    case Ends(id, given, around) => End(p, id, given, around)
  }

  function Run(p: Process, events: seq<Event>): Process
    decreases |events|
  {
    if events == [] then p else Run(Step(p, events[0]), events[1..])
  }

  function Created(enabled: bool): Process {
    Process(enabled, Counters(0, 0, 0), {}, map[], map[], map[], map[], [])
  }

  // ----- nothing auxiliary throws

  /** Whatever the reader and the logger do, a capture returns, and with the very snapshot it handed to the logger. */
  lemma CaptureReturns(enabled: bool, c: Counters, kind: Kind, moment: Moment, outcome: Option<Outcome>,
                       duration: Option<Number>, around: Surroundings)
    ensures Capture(enabled, c, kind, moment, outcome, duration, around)
         == Returns(Handed(enabled, c, kind, moment, outcome, duration, around))
  {
    hide Describe;
  }

  /** So do the statements before the operation and those after it: the operation is reached, and its end is passed on. */
  lemma OpeningAndClosingReturn(c: Counters, kind: Kind, flight: Flight, outcome: Outcome, around: Surroundings)
    ensures forall captures :: Opening(c, kind, captures, around).Returns?
    ensures Closing(c, flight, outcome, around).Returns?
    ensures forall body: Completion<nat> :: Finally(body, Closing(c, flight, outcome, around)) == body
  {
    CaptureReturns(true, c, kind, Before, None, None, around);
    var duration := Elapsed(flight.startedAt, around.clock);
    CaptureReturns(true, c, flight.kind, After, Some(outcome), duration.value, around);
    hide Capture, Handed;
  }

  /** What a start does to the operation and to the counters, whatever surrounds it. */
  lemma StartReachesTheOperation(p: Process, id: nat, kind: Kind, captures: bool, around: Surroundings)
    requires id !in p.begun
    ensures var after := Start(p, id, kind, captures, around);
            && after.begun == p.begun + {id}
            && after.calls == p.calls[id := (if id in p.calls then p.calls[id] else 0) + 1]
            && after.flying == p.flying[id := after.flying[id]] && after.flying[id].kind == kind
            && after.given == p.given && after.results == p.results && after.enabled == p.enabled
            && after.counters == (if p.enabled then Started(p.counters, kind) else p.counters)
  {
    OpeningAndClosingReturn(Started(p.counters, kind), kind, Flight(kind, captures, None), Failed, around);
    hide Opening, HandedBefore, Started;
  }

  /** What an end does: the caller gets exactly how the operation ended. */
  lemma EndPassesOn(p: Process, id: nat, given: Completion<nat>, around: Surroundings)
    requires id in p.flying
    ensures var after := End(p, id, given, around);
            && after.begun == p.begun && after.calls == p.calls && after.flying == p.flying - {id}
            && after.given == p.given[id := given] && after.results == p.results[id := given]
            && after.enabled == p.enabled
            && after.counters == (if p.enabled then Ended(p.counters, p.flying[id].kind) else p.counters)
  {
    var flight := p.flying[id];
    var outcome := if given.Returns? then Completed else Failed;
    OpeningAndClosingReturn(Ended(p.counters, flight.kind), flight.kind, flight, outcome, around);
    hide Closing, HandedAfter, Ended, Finally;
  }

  // ----- the counters

  function InFlight(p: Process, kind: Kind): set<nat> {
    set id | id in p.flying && p.flying[id].kind == kind
  }

  ghost predicate Exact(p: Process) {
    && (forall kind :: Count(p.counters, kind) == (if p.enabled then |InFlight(p, kind)| else 0))
    && (forall id :: id in p.flying ==> id in p.begun)
  }

  /** A start finds room below the largest safe integer. */
  predicate Fits(p: Process, e: Event) {
    e.Starts? && p.enabled && e.id !in p.begun ==> |InFlight(p, e.kind)| < MAX_SAFE_INTEGER
  }

  lemma CountOfUpdate(c: Counters, kind: Kind, count: nat, other: Kind)
    ensures Count(WithCount(c, kind, count), other) == if other == kind then count else Count(c, other)
  {
  }

  lemma FlightsAfterStart(flying: map<nat, Flight>, id: nat, flight: Flight, p: Process, after: Process, kind: Kind)
    requires p.flying == flying && after.flying == flying[id := flight] && id !in flying
    ensures |InFlight(after, kind)| == |InFlight(p, kind)| + if kind == flight.kind then 1 else 0
  {
    assert InFlight(after, kind) == InFlight(p, kind) + (if kind == flight.kind then {id} else {});
  }

  lemma FlightsAfterEnd(p: Process, id: nat, after: Process, kind: Kind)
    requires id in p.flying && after.flying == p.flying - {id}
    ensures |InFlight(after, kind)| == |InFlight(p, kind)| - if kind == p.flying[id].kind then 1 else 0
  {
    assert InFlight(after, kind) == InFlight(p, kind) - (if kind == p.flying[id].kind then {id} else {});
  }

  /** A start is counted exactly unless the counter is full. */
  lemma StartCounts(p: Process, e: Event)
    requires Exact(p) && e.Starts?
    ensures Exact(Step(p, e)) <==> Fits(p, e)
  {
    var after := Step(p, e);
    if e.id !in p.begun {
      StartReachesTheOperation(p, e.id, e.kind, e.captures, e.around);
      hide Start;
      forall kind
        ensures |InFlight(after, kind)| == |InFlight(p, kind)| + if kind == e.kind then 1 else 0
        ensures Count(after.counters, kind) ==
                if !p.enabled || kind != e.kind then Count(p.counters, kind)
                else if Count(p.counters, kind) < MAX_SAFE_INTEGER then Count(p.counters, kind) + 1 else MAX_SAFE_INTEGER
      {
        FlightsAfterStart(p.flying, e.id, after.flying[e.id], p, after, kind);
        CountOfUpdate(p.counters, e.kind, Count(Started(p.counters, e.kind), e.kind), kind);
      }
      assert Count(p.counters, e.kind) == if p.enabled then |InFlight(p, e.kind)| else 0;
      assert p.enabled ==> (Count(after.counters, e.kind) == |InFlight(after, e.kind)| <==> Fits(p, e));
    }
  }

  lemma EndCounts(p: Process, e: Event)
    requires Exact(p) && e.Ends?
    ensures Exact(Step(p, e))
  {
    var after := Step(p, e);
    if e.id in p.flying {
      EndPassesOn(p, e.id, e.given, e.around);
      hide End;
      var k := p.flying[e.id].kind;
      forall kind
        ensures Count(after.counters, kind) == (if p.enabled then |InFlight(after, kind)| else 0)
      {
        FlightsAfterEnd(p, e.id, after, kind);
        CountOfUpdate(p.counters, k, Count(Ended(p.counters, k), k), kind);
      }
    }
  }

  predicate AlwaysFits(p: Process, events: seq<Event>)
    decreases |events|
  {
    events == [] || (Fits(p, events[0]) && AlwaysFits(Step(p, events[0]), events[1..]))
  }

  /** Each counter is the number of its operations in flight, however they overlap and end, unless one is ever full. */
  lemma {:induction false} CountersAreExact(p: Process, events: seq<Event>)
    requires Exact(p) && AlwaysFits(p, events)
    ensures Exact(Run(p, events))
    decreases |events|
  {
    hide Exact, Step, Fits;
    if events != [] {
      if events[0].Starts? {
        StartCounts(p, events[0]);
      } else {
        EndCounts(p, events[0]);
      }
      CountersAreExact(Step(p, events[0]), events[1..]);
    }
  }

  // ----- diagnostics are auxiliary

  /** The same operations, whatever the clocks, the readers and the loggers do in each of the two runs. */
  predicate SameOperation(a: Event, b: Event) {
    match a
    case Starts(id, kind, captures, _) => b.Starts? && b.id == id && b.kind == kind && b.captures == captures
    case Ends(id, given, _) => b.Ends? && b.id == id && b.given == given
  }

  predicate SameOperations(a: seq<Event>, b: seq<Event>) {
    |a| == |b| && forall i :: 0 <= i < |a| ==> SameOperation(a[i], b[i])
  }

  /** The two processes agree on everything the callers of the operations can see. */
  ghost predicate Alike(p: Process, q: Process) {
    && p.begun == q.begun && p.calls == q.calls && p.given == q.given && p.results == q.results
    && p.flying.Keys == q.flying.Keys
    && (forall id :: id in p.flying ==> p.flying[id].kind == q.flying[id].kind)
    && (p.enabled == q.enabled ==> p.counters == q.counters)
  }

  lemma StartIsAlike(p: Process, q: Process, a: Event, b: Event)
    requires Alike(p, q) && SameOperation(a, b) && a.Starts?
    ensures Alike(Step(p, a), Step(q, b))
  {
    if a.id !in p.begun {
      StartReachesTheOperation(p, a.id, a.kind, a.captures, a.around);
      StartReachesTheOperation(q, b.id, b.kind, b.captures, b.around);
    }
    hide Start, Started;
  }

  lemma EndIsAlike(p: Process, q: Process, a: Event, b: Event)
    requires Alike(p, q) && SameOperation(a, b) && a.Ends?
    ensures Alike(Step(p, a), Step(q, b))
  {
    assert a.id in p.flying <==> a.id in q.flying.Keys;
    if a.id in p.flying {
      EndPassesOn(p, a.id, a.given, a.around);
      EndPassesOn(q, b.id, b.given, b.around);
      hide End, Ended;
    }
  }

  lemma StepIsAlike(p: Process, q: Process, a: Event, b: Event)
    requires Alike(p, q) && SameOperation(a, b)
    ensures Alike(Step(p, a), Step(q, b))
  {
    if a.Starts? {
      StartIsAlike(p, q, a, b);
    } else {
      EndIsAlike(p, q, a, b);
    }
    hide Step, Alike;
  }

  /**
   Whatever the clocks, the memory readers and the loggers return or throw, and whether diagnostics are enabled at all,
   the operations are called as often and their callers get the same; so are the counters when enabled.
   */
  lemma {:induction false} OperationsAreUntouched(p: Process, q: Process, a: seq<Event>, b: seq<Event>)
    requires Alike(p, q) && SameOperations(a, b)
    ensures Alike(Run(p, a), Run(q, b))
    decreases |a|
  {
    if a != [] {
      StepIsAlike(p, q, a[0], b[0]);
      hide Alike, Step, SameOperation;
      OperationsAreUntouched(Step(p, a[0]), Step(q, b[0]), a[1..], b[1..]);
    }
  }

  /** Each call has called its operation once, and has ended as the operation did, exactly when the operation has. */
  ghost predicate CalledOnce(p: Process) {
    && (forall id :: id in p.calls <==> id in p.begun)
    && (forall id :: id in p.calls ==> p.calls[id] == 1)
    && (forall id :: id in p.begun <==> id in p.flying || id in p.results)
    && (forall id :: id in p.flying ==> id !in p.results)
    && p.results == p.given
  }

  lemma StepCallsOnce(p: Process, e: Event)
    requires CalledOnce(p)
    ensures CalledOnce(Step(p, e))
  {
    match e {
      case Starts(id, kind, captures, around) =>
        if id !in p.begun {
          StartReachesTheOperation(p, id, kind, captures, around);
        }
        hide Start;
      case Ends(id, given, around) =>
        if id in p.flying {
          EndPassesOn(p, id, given, around);
        }
        hide End;
    }
  }

  lemma {:induction false} CallsStayOnce(p: Process, events: seq<Event>)
    requires CalledOnce(p)
    ensures CalledOnce(Run(p, events))
    decreases |events|
  {
    if events != [] {
      StepCallsOnce(p, events[0]);
      hide CalledOnce, Step;
      CallsStayOnce(Step(p, events[0]), events[1..]);
    }
  }

  /**
   In every run of a new process each call of `runOperation` calls its operation exactly once, is over exactly when that
   is, and returns or throws exactly what it returned or threw, whatever clocks, readers and loggers throw meanwhile.
   */
  lemma EachRunsOnce(enabled: bool, events: seq<Event>)
    ensures var p := Run(Created(enabled), events);
            && (forall id :: id in p.begun ==> id in p.calls && p.calls[id] == 1)
            && (forall id :: id in p.begun ==> (id in p.results <==> id !in p.flying))
            && p.results == p.given
  {
    CallsStayOnce(Created(enabled), events);
    hide Run;
  }

  /** An operation that starts and ends: it was called, its caller has its end, and its counter is where it was. */
  lemma OperationCompletes(p: Process, id: nat, kind: Kind, captures: bool, given: Completion<nat>,
                           before: Surroundings, after: Surroundings)
    requires id !in p.begun && id !in p.calls && (p.enabled ==> Count(p.counters, kind) < MAX_SAFE_INTEGER)
    ensures var r := Run(p, [Starts(id, kind, captures, before), Ends(id, given, after)]);
            && id in r.calls && r.calls[id] == 1 && id in r.results && r.results[id] == given && id !in r.flying
            && r.counters == p.counters
  {
    var start, end := Starts(id, kind, captures, before), Ends(id, given, after);
    var started := Step(p, start);
    StartReachesTheOperation(p, id, kind, captures, before);
    EndPassesOn(started, id, given, after);
    if p.enabled {
      assert Ended(Started(p.counters, kind), kind) == p.counters;
    }
    hide Start, End;
    assert [start, end][1..] == [end] && [end][1..] == [];
    assert Run(p, [start, end]) == Run(started, [end]) == Run(Step(started, end), []);
  }

  /** The same of the counters, from the creation of the process on. */
  lemma CountersCountFlights(enabled: bool, events: seq<Event>, kind: Kind)
    requires AlwaysFits(Created(enabled), events)
    ensures var p := Run(Created(enabled), events);
            Count(p.counters, kind) == if p.enabled then |InFlight(p, kind)| else 0
  {
    assert forall k :: InFlight(Created(enabled), k) == {};
    CountersAreExact(Created(enabled), events);
    hide Run;
  }

  // ----- what a snapshot says

  lemma RoundIsNear(x: real)
    ensures -0.5 <= Round(x) as real - x <= 0.5
  {
  }

  /** A size is rounded to the nearest tenth of a mebibyte, and is missing exactly when it makes no sense. */
  lemma MiBIsNear(bytes: Number)
    ensures ToMiB(bytes).Some? <==> bytes.Finite? && bytes.value >= 0.0
    ensures ToMiB(bytes).Some? ==> ToMiB(bytes).value >= 0.0
                                   && -0.05 <= ToMiB(bytes).value - bytes.value / BYTES_PER_MIB <= 0.05
  {
    if bytes.Finite? && bytes.value >= 0.0 {
      RoundIsNear(bytes.value / BYTES_PER_MIB * 10.0);
    }
  }

  /**
   A snapshot is taken exactly when the reader returns and every size makes sense, whatever the logger does. It gives
   each size within a twentieth of a mebibyte in its place, and the duration within half a microsecond, or none when it
   makes no sense.
   */
  lemma CaptureReportsUsage(c: Counters, kind: Kind, moment: Moment, outcome: Option<Outcome>, duration: Option<Number>,
                            around: Surroundings)
    ensures var r := Capture(true, c, kind, moment, outcome, duration, around);
            && r.Returns?
            && (r.value.Some? <==> around.memory.Returns? && forall k :: 0 <= k < 5 ==>
                                     Sizes(around.memory.value)[k].Finite? && Sizes(around.memory.value)[k].value >= 0.0)
            && (r.value.Some? ==>
                  var s, sizes := r.value.value, Sizes(around.memory.value);
                  && |s.mib| == 5
                  && (forall k :: 0 <= k < 5 ==> -0.05 <= s.mib[k] - sizes[k].value / BYTES_PER_MIB <= 0.05)
                  && (s.durationMs.Some? <==> duration.Some? && duration.value.Finite? && duration.value.value >= 0.0)
                  && (s.durationMs.Some? ==> -0.0005 <= s.durationMs.value - duration.value.value <= 0.0005))
  {
    CaptureReturns(true, c, kind, moment, outcome, duration, around);
    if around.memory.Returns? {
      DescriptionIsNear(c, kind, moment, outcome, duration, around.memory.value);
    }
    hide Capture, Describe;
  }

  lemma DescriptionIsNear(c: Counters, kind: Kind, moment: Moment, outcome: Option<Outcome>, duration: Option<Number>,
                          usage: Usage)
    ensures var s, sizes := Describe(c, kind, moment, outcome, duration, usage), Sizes(usage);
            && (s.Some? <==> forall k :: 0 <= k < 5 ==> sizes[k].Finite? && sizes[k].value >= 0.0)
            && (s.Some? ==>
                  && |s.value.mib| == 5
                  && (forall k :: 0 <= k < 5 ==> -0.05 <= s.value.mib[k] - sizes[k].value / BYTES_PER_MIB <= 0.05)
                  && (s.value.durationMs.Some? <==>
                        duration.Some? && duration.value.Finite? && duration.value.value >= 0.0)
                  && (s.value.durationMs.Some? ==>
                        -0.0005 <= s.value.durationMs.value - duration.value.value <= 0.0005))
  {
    var sizes := Sizes(usage);
    var read := [ToMiB(usage.rss), ToMiB(usage.heapTotal), ToMiB(usage.heapUsed), ToMiB(usage.external),
                 ToMiB(usage.arrayBuffers)];
    forall k | 0 <= k < 5
      ensures read[k] == ToMiB(sizes[k])
      ensures read[k].Some? <==> sizes[k].Finite? && sizes[k].value >= 0.0
      ensures read[k].Some? ==> -0.05 <= read[k].value - sizes[k].value / BYTES_PER_MIB <= 0.05
    {
      MiBIsNear(sizes[k]);
    }
    hide ToMiB;
    assert None in read <==> exists k :: 0 <= k < 5 && read[k].None?;
    if duration.Some? && duration.value.Finite? {
      RoundIsNear(duration.value.value * 1000.0);
    }
  }

  /** Logged snapshots count the operation itself before it runs and no longer after; durations are never negative. */
  ghost predicate SnapshotsSound(logged: seq<Entry>) {
    forall i :: 0 <= i < |logged| ==>
      var s := logged[i].snapshot;
      && |s.mib| == 5
      && (s.moment.Before? ==> Count(s.counters, s.kind) >= 1 && s.outcome.None? && s.durationMs.None?)
      && (s.moment.After? ==> s.outcome.Some?)
      && (s.durationMs.Some? ==> s.durationMs.value >= 0.0)
  }

  lemma DescribedIsSound(c: Counters, kind: Kind, moment: Moment, outcome: Option<Outcome>, duration: Option<Number>,
                         usage: Usage)
    requires moment.Before? ==> Count(c, kind) >= 1 && outcome.None? && duration.None?
    requires moment.After? ==> outcome.Some?
    ensures var s := Describe(c, kind, moment, outcome, duration, usage);
            forall id :: SnapshotsSound(Noted(id, s))
  {
  }

  lemma HandedBeforeIsSound(id: nat, c: Counters, kind: Kind, captures: bool, around: Surroundings)
    requires Count(c, kind) >= 1
    ensures SnapshotsSound(Noted(id, HandedBefore(c, kind, captures, around)))
  {
    if around.memory.Returns? {
      DescribedIsSound(c, kind, Before, None, None, around.memory.value);
    }
    hide Describe;
  }

  lemma HandedAfterIsSound(id: nat, c: Counters, flight: Flight, outcome: Outcome, around: Surroundings)
    ensures SnapshotsSound(Noted(id, HandedAfter(c, flight, outcome, around)))
  {
    var duration := Elapsed(flight.startedAt, around.clock);
    if around.memory.Returns? && duration.Returns? {
      DescribedIsSound(c, flight.kind, After, Some(outcome), duration.value, around.memory.value);
    }
    hide Describe;
  }

  lemma SnapshotsStaySound(p: Process, e: Event)
    requires SnapshotsSound(p.logged)
    ensures SnapshotsSound(Step(p, e).logged)
  {
    match e {
      case Starts(id, kind, captures, around) =>
        var c, flight := Started(p.counters, kind), Flight(kind, captures, None);
        CountOfUpdate(p.counters, kind, Count(c, kind), kind);
        HandedBeforeIsSound(id, c, kind, captures, around);
        OpeningAndClosingReturn(c, kind, flight, Failed, around);
      case Ends(id, given, around) =>
        if id in p.flying {
          var flight := p.flying[id];
          HandedAfterIsSound(id, Ended(p.counters, flight.kind), flight, if given.Returns? then Completed else Failed, around);
        }
    }
    hide Opening, Closing, HandedBefore, HandedAfter, Started, Ended, Count;
  }

  lemma {:induction false} SnapshotsAreSound(p: Process, events: seq<Event>)
    requires SnapshotsSound(p.logged)
    ensures SnapshotsSound(Run(p, events).logged)
    decreases |events|
  {
    if events != [] {
      SnapshotsStaySound(p, events[0]);
      hide SnapshotsSound, Step;
      SnapshotsAreSound(Step(p, events[0]), events[1..]);
    }
  }

  // ----- which snapshots are logged

  /** The reader answers, and every size makes sense. */
  predicate Readable(around: Surroundings) {
    around.memory.Returns? && forall k :: 0 <= k < 5 ==>
      Sizes(around.memory.value)[k].Finite? && Sizes(around.memory.value)[k].value >= 0.0
  }

  /** The clock's answer, if it is a time. */
  function TimeOf(clock: Completion<Number>): Option<real> {
    if clock.Returns? && clock.value.Finite? then Some(clock.value.value) else None
  }

  /** A start logs one snapshot exactly if it captures and the memory can be read: of its kind, itself counted. */
  lemma StartLogs(p: Process, id: nat, kind: Kind, captures: bool, around: Surroundings)
    requires id !in p.begun
    ensures var after := Start(p, id, kind, captures, around);
            && after.flying[id].captures == (p.enabled && captures)
            && after.flying[id].startedAt == (if p.enabled && captures then TimeOf(around.clock) else None)
            && (if p.enabled && captures && Readable(around) then
                  && |after.logged| == |p.logged| + 1 && after.logged[..|p.logged|] == p.logged
                  && after.logged[|p.logged|].call == id
                  && var s := after.logged[|p.logged|].snapshot;
                     s.kind == kind && s.moment.Before? && s.counters == after.counters && s.outcome.None?
                else after.logged == p.logged)
  {
    OpeningAndClosingReturn(Started(p.counters, kind), kind, Flight(kind, captures, None), Failed, around);
    if around.memory.Returns? {
      DescriptionIsNear(Started(p.counters, kind), kind, Before, None, None, around.memory.value);
    }
    hide Started, ToMiB;
  }

  /**
   So does an end, no longer counted: it says how the operation ended, and how long it took when both times are known and
   in order.
   */
  lemma EndLogs(p: Process, id: nat, given: Completion<nat>, around: Surroundings)
    requires id in p.flying
    ensures var flight, after := p.flying[id], End(p, id, given, around);
            if p.enabled && flight.captures && Readable(around) then
              && |after.logged| == |p.logged| + 1 && after.logged[..|p.logged|] == p.logged
              && after.logged[|p.logged|].call == id
              && var s, now := after.logged[|p.logged|].snapshot, TimeOf(around.clock);
                 && s.kind == flight.kind && s.moment.After? && s.counters == after.counters
                 && s.outcome == Some(if given.Returns? then Completed else Failed)
                 && (s.durationMs.Some? <==> flight.startedAt.Some? && now.Some? && now.value >= flight.startedAt.value)
                 && (s.durationMs.Some? ==>
                       -0.0005 <= s.durationMs.value - (now.value - flight.startedAt.value) <= 0.0005)
            else after.logged == p.logged
  {
    var flight := p.flying[id];
    var outcome := if given.Returns? then Completed else Failed;
    OpeningAndClosingReturn(Ended(p.counters, flight.kind), flight.kind, flight, outcome, around);
    if around.memory.Returns? {
      DescriptionIsNear(Ended(p.counters, flight.kind), flight.kind, After, Some(outcome),
                        Elapsed(flight.startedAt, around.clock).value, around.memory.value);
    }
    hide Ended, ToMiB, FiniteDuration, Closing, Finally;
  }

  /** What the log says of a call: that it began, or how its operation ended. */
  predicate TellsTruth(p: Process, entry: Entry) {
    && entry.call in p.begun
    && (entry.snapshot.moment.Before? ==> entry.snapshot.outcome.None?)
    && (entry.snapshot.moment.After? ==>
          entry.call in p.given
          && entry.snapshot.outcome == Some(if p.given[entry.call].Returns? then Completed else Failed))
  }

  /** Each call has one snapshot of each moment at most, and its own. */
  ghost predicate LogSound(p: Process) {
    && (forall i :: 0 <= i < |p.logged| ==> TellsTruth(p, p.logged[i]))
    && (forall i, j :: 0 <= i < j < |p.logged| && p.logged[i].call == p.logged[j].call ==>
          p.logged[i].snapshot.moment.Before? && p.logged[j].snapshot.moment.After?)
  }

  lemma StartKeepsLog(p: Process, id: nat, kind: Kind, captures: bool, around: Surroundings)
    requires CalledOnce(p) && LogSound(p) && id !in p.begun
    ensures LogSound(Start(p, id, kind, captures, around))
  {
    StartLogs(p, id, kind, captures, around);
    StartReachesTheOperation(p, id, kind, captures, around);
    var after := Start(p, id, kind, captures, around);
    hide Start, Readable;
    assert forall i :: 0 <= i < |p.logged| ==> after.logged[i] == p.logged[i];
  }

  lemma EndKeepsLog(p: Process, id: nat, given: Completion<nat>, around: Surroundings)
    requires CalledOnce(p) && LogSound(p) && id in p.flying
    ensures LogSound(End(p, id, given, around))
  {
    EndLogs(p, id, given, around);
    EndPassesOn(p, id, given, around);
    var after := End(p, id, given, around);
    hide End, Readable, TimeOf;
    assert id !in p.given && id in p.begun;
    assert forall i :: 0 <= i < |p.logged| ==> after.logged[i] == p.logged[i];
  }

  lemma {:induction false} LogsStaySound(p: Process, events: seq<Event>)
    requires CalledOnce(p) && LogSound(p)
    ensures LogSound(Run(p, events))
    decreases |events|
  {
    if events != [] {
      var e := events[0];
      StepCallsOnce(p, e);
      match e {
        case Starts(id, kind, captures, around) =>
          if id !in p.begun { StartKeepsLog(p, id, kind, captures, around); }
        case Ends(id, given, around) =>
          if id in p.flying { EndKeepsLog(p, id, given, around); }
      }
      hide CalledOnce, LogSound, Start, End;
      LogsStaySound(Step(p, e), events[1..]);
    }
  }

  /**
   In every run of a new process a snapshot from after an operation says completed exactly if that operation returned,
   and each call logs at most one snapshot before its operation and one after it, in that order.
   */
  lemma OutcomesAreTrue(enabled: bool, events: seq<Event>, i: nat, j: nat)
    ensures var p := Run(Created(enabled), events);
            && (i < |p.logged| && p.logged[i].snapshot.moment.After? ==>
                  p.logged[i].call in p.given
                  && p.logged[i].snapshot.outcome ==
                     Some(if p.given[p.logged[i].call].Returns? then Completed else Failed))
            && (i < j < |p.logged| && p.logged[i].call == p.logged[j].call ==>
                  p.logged[i].snapshot.moment.Before? && p.logged[j].snapshot.moment.After?)
  {
    LogsStaySound(Created(enabled), events);
    hide Run;
  }

  // ----- in the form of the source

  class Diagnostics {
    const enabled: bool
    var activeUploads: nat
    var activeImageTransforms: nat
    var activeS3Operations: nat

    function CountersView(): Counters
      reads this
    {
      Counters(activeUploads, activeImageTransforms, activeS3Operations)
    }

    constructor (enabled: bool)
      ensures this.enabled == enabled && CountersView() == Counters(0, 0, 0)
    {
      this.enabled := enabled;
      activeUploads, activeImageTransforms, activeS3Operations := 0, 0, 0;
    }

    method SetCounter(kind: Kind, count: nat)
      modifies this
      ensures CountersView() == WithCount(old(CountersView()), kind, count)
    {
      match kind {
        case Upload => activeUploads := count;
        case ImageTransform => activeImageTransforms := count;
        case S3Operation => activeS3Operations := count;
      }
    }

    /** `handed` is what the logger was called with. */
    method CaptureSnapshot(kind: Kind, moment: Moment, outcome: Option<Outcome>, duration: Option<Number>,
                           around: Surroundings)
      returns (completion: Completion<Option<Snapshot>>, handed: Option<Snapshot>)
      ensures completion == Capture(enabled, CountersView(), kind, moment, outcome, duration, around)
      ensures handed == Handed(enabled, CountersView(), kind, moment, outcome, duration, around)
      ensures completion == Returns(handed)
    {
      if !enabled { return Returns(None), None; }
      var usage;
      match around.memory {
        case Throws(_) => return Returns(None), None;
        case Returns(read) => usage := read;
      }
      var rss, total, used := ToMiB(usage.rss), ToMiB(usage.heapTotal), ToMiB(usage.heapUsed);
      var external, buffers := ToMiB(usage.external), ToMiB(usage.arrayBuffers);
      if rss.None? || total.None? || used.None? || external.None? || buffers.None? { return Returns(None), None; }
      var mib := [rss.value, total.value, used.value, external.value, buffers.value];
      var snapshot := Snapshot(kind, moment, mib, CountersView(), outcome, FiniteDuration(duration));
      var read := [rss, total, used, external, buffers];
      assert mib == seq(5, i requires 0 <= i < 5 => GetOr(read[i], 0.0));
      handed := Some(snapshot);
      completion := Then(Catch(around.logger, Returns(())), (_: ()) => Returns(Some(snapshot)));
    }

    /** `runOperation` up to the call of the operation, for the process `p` it is part of: the call is always reached. */
    method BeginOperation(ghost p: Process, id: nat, kind: Kind, captureEvents: bool, around: Surroundings)
      returns (opening: Completion<Option<real>>, handed: Option<Snapshot>)
      requires p.enabled == enabled && p.counters == CountersView() && id !in p.begun
      modifies this
      ensures opening.Returns?
      ensures var after := Start(p, id, kind, captureEvents, around);
              && CountersView() == after.counters
              && after.flying == p.flying[id := Flight(kind, captureEvents && enabled, opening.value)]
              && after.logged == p.logged + Noted(id, handed)
    {
      hide Describe;
      OpeningAndClosingReturn(Started(p.counters, kind), kind, Flight(kind, captureEvents, None), Failed, around);
      opening, handed := Returns(None), None;
      if !enabled { return; }
      var active := Count(CountersView(), kind);
      SetCounter(kind, if active < MAX_SAFE_INTEGER then active + 1 else MAX_SAFE_INTEGER);
      if captureEvents {
        var startedAt: Option<real> := None;
        match around.clock {
          case Returns(now) => startedAt := if now.Finite? then Some(now.value) else None;
          case Throws(_) => startedAt := None;
        }
        var captured;
        captured, handed := CaptureSnapshot(kind, Before, None, None, around);
        opening := Then(captured, (_: Option<Snapshot>) => Returns(startedAt));
      }
    }

    /** Its `finally`, once the operation has returned or thrown: the caller gets just that. */
    method EndOperation(ghost p: Process, ghost id: nat, flight: Flight, given: Completion<nat>, around: Surroundings)
      returns (completion: Completion<nat>, handed: Option<Snapshot>)
      requires p.enabled == enabled && p.counters == CountersView() && id in p.flying && p.flying[id] == flight
      requires flight.captures ==> enabled
      modifies this
      ensures completion == given
      ensures var after := End(p, id, given, around);
              && CountersView() == after.counters && after.results[id] == completion
              && after.logged == p.logged + Noted(id, handed)
    {
      hide Describe;
      completion, handed := given, None;
      if !enabled { return; }
      ghost var ended, outcome := Ended(p.counters, flight.kind), if given.Returns? then Completed else Failed;
      OpeningAndClosingReturn(ended, flight.kind, flight, outcome, around);
      var active := Count(CountersView(), flight.kind);
      SetCounter(flight.kind, if active > 0 then active - 1 else 0);
      if flight.captures {
        var duration: Option<Number> := None;
        if flight.startedAt.Some? {
          match around.clock {
            case Returns(now) =>
              duration := Some(if now.Finite? then Finite(now.value - flight.startedAt.value) else NotFinite);
            case Throws(_) => duration := None;
          }
        }
        var captured;
        captured, handed := CaptureSnapshot(flight.kind, After, Some(if given.Returns? then Completed else Failed),
                                            duration, around);
        completion := Finally(given, Then(captured, (_: Option<Snapshot>) => Returns(())));
      }
    }
  }
}
