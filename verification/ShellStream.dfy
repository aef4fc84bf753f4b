/**
  The exec daemon's answer to one request, pulled element by element. For a streamed shell the child's chunks and its
  exit arrive in between, in any order, while the consumer sleeps, reads or has not asked yet.
 */
module ShellStream {
  import opened Option

  datatype Chunk = Chunk(fromStderr: bool, data: string)
  datatype Element = Start | Data(chunk: Chunk) | Exit(code: int) | Answer | Thrown | Close

  /** What the daemon is asked; whether the path, the spawn or the awaited result is fine is up to the environment. */
  datatype Request = Stream(pathOk: bool, spawnOk: bool) | Single(ok: bool) | Unsupported

  /** Where the generator is suspended. Asleep: it awaits `wake`; Woken: `wake` was called. */
  datatype Phase = Fresh | Started | Yielded | Asleep | Woken | Ending | Closed

  datatype Execution = Execution(
    request: Request, phase: Phase, events: seq<Chunk>, done: bool, code: int, output: seq<Element>, arrivals: seq<Chunk>)

  datatype Event = Pull | Resume | Arrive(chunk: Chunk) | ChildClosed(code: int)

  function Begin(request: Request): Execution { Execution(request, Fresh, [], false, 1, [], []) }

  function Emit(x: Execution, e: Element, phase: Phase): Execution { x.(output := x.output + [e], phase := phase) }

  /** The loop of shellStream from any of its suspension points to the next. */
  function Go(x: Execution): Execution {
    if x.events != [] then Emit(x.(events := x.events[1..]), Data(x.events[0]), Yielded)
    else if x.done then Emit(x, Exit(x.code), Ending)
    else x.(phase := Asleep)
  }

  function Pulled(x: Execution): Execution {
    match x.phase
    case Fresh =>
      (match x.request
       case Stream(pathOk, _) => if pathOk then Emit(x, Start, Started) else Emit(x, Thrown, Ending)
       case Single(ok) => Emit(x, if ok then Answer else Thrown, Ending)
       case Unsupported => Emit(x, Thrown, Ending))
    case Started => if x.request.Stream? && x.request.spawnOk then Go(x) else Emit(x, Thrown, Ending)
    case Yielded => Go(x)
    case Ending => Emit(x, Close, Closed)
    case _ => x
  }

  /** There is a child once the start element has been consumed and the shell spawned. */
  predicate HasChild(x: Execution) { x.phase.Yielded? || x.phase.Asleep? || x.phase.Woken? }

  function Notify(x: Execution): Execution { if x.phase.Asleep? then x.(phase := Woken) else x }

  /** A chunk counts as arrived until the exit has been emitted; later ones reach nobody. */
  function Step(x: Execution, e: Event): Execution {
    match e
    case Pull => Pulled(x)
    case Resume => if x.phase.Woken? then Go(x) else x
    case Arrive(chunk) =>
      if HasChild(x) then Notify(x.(events := x.events + [chunk], arrivals := x.arrivals + [chunk])) else x
    case ChildClosed(code) => if HasChild(x) && !x.done then Notify(x.(done := true, code := code)) else x
  }

  function Run(request: Request, es: seq<Event>): Execution
    decreases |es|
  {
    if es == [] then Begin(request) else Step(Run(request, es[..|es| - 1]), es[|es| - 1])
  }

  /** The generator object: `shift`, `push` and `wake` on its own fields. */
  class Exec {
    const request: Request
    var phase: Phase
    var events: seq<Chunk>
    var done: bool
    var code: int
    ghost var output: seq<Element>
    ghost var arrivals: seq<Chunk>

    ghost function Abs(): Execution
      reads this
    {
      Execution(request, phase, events, done, code, output, arrivals)
    }

    /** Emitted and queued chunks are those that arrived, and nothing is closed twice. */
    ghost predicate Valid()
      reads this
    {
      Good(Abs())
    }

    constructor (request: Request)
      ensures Valid() && Abs() == Begin(request)
    {
      hide Good;
      InitiallyGood(request);
      this.request := request;
      phase, events, done, code := Fresh, [], false, 1;
      output, arrivals := [], [];
    }

    method Yield(e: Element, next: Phase)
      modifies this
      ensures Abs() == Emit(old(Abs()), e, next)
    {
      phase := next;
      output := output + [e];
    }

    method Loop()
      modifies this
      ensures Abs() == Go(old(Abs()))
    {
      if events != [] {
        var event := events[0];
        events := events[1..];
        Yield(Data(event), Yielded);
      } else if done {
        Yield(Exit(code), Ending);
      } else {
        phase := Asleep;
      }
    }

    method Next()
      requires Valid()
      modifies this
      ensures Valid() && Abs() == Pulled(old(Abs()))
    {
      hide Good;
      GoodKept(Abs(), Pull);
      match phase
      case Fresh =>
        if request.Stream? && request.pathOk {
          Yield(Start, Started);
        } else {
          Yield(if request.Single? && request.ok then Answer else Thrown, Ending);
        }
      case Started =>
        if request.Stream? && request.spawnOk {
          Loop();
        } else {
          Yield(Thrown, Ending);
        }
      case Yielded => Loop();
      case Ending => Yield(Close, Closed);
      case Asleep =>
      case Woken =>
      case Closed =>
    }

    method Wake()
      modifies this
      ensures Abs() == Notify(old(Abs()))
    {
      if phase.Asleep? {
        phase := Woken;
      }
    }

    /** However it got here: a closed stream has emitted everything once, and a sleeping one has nothing pending. */
    method Handle(e: Event)
      requires Valid()
      modifies this
      ensures Valid() && Abs() == Step(old(Abs()), e)
      ensures phase.Closed? && request == Stream(true, true) ==> output == [Start] + Datas(arrivals) + [Exit(code), Close]
      ensures phase.Closed? ==> Closes(output) == 1 && output[|output| - 1] == Close
      ensures phase.Asleep? && request == Stream(true, true) ==> events == [] && !done
    {
      hide Good, Datas, Closes;
      GoodKept(Abs(), e);
      GoodMeans(Step(Abs(), e));
      match e
      case Pull => Next();
      case Resume =>
        if phase.Woken? {
          Loop();
        }
      case Arrive(chunk) =>
        if phase.Yielded? || phase.Asleep? || phase.Woken? {
          events := events + [chunk];
          arrivals := arrivals + [chunk];
          Wake();
        }
      case ChildClosed(c) =>
        if (phase.Yielded? || phase.Asleep? || phase.Woken?) && !done {
          done, code := true, c;
          Wake();
        }
    }
  }

  // ---------------------------------------------------------------- what is emitted

  function Datas(chunks: seq<Chunk>): seq<Element> {
    seq(|chunks|, i requires 0 <= i < |chunks| => Data(chunks[i]))
  }

  /** Emitted and queued chunks together are the chunks that arrived; nothing sleeps over pending work. */
  predicate StreamOk(x: Execution) {
    && x.request == Stream(true, true)
    && (x.phase.Fresh? ==> x.output == [] && x.arrivals == x.events == [] && !x.done)
    && (x.phase.Started? ==> x.output == [Start] && x.arrivals == x.events == [] && !x.done)
    && (HasChild(x) ==>
          && |x.events| <= |x.arrivals| && x.arrivals[|x.arrivals| - |x.events|..] == x.events
          && x.output == [Start] + Datas(x.arrivals[..|x.arrivals| - |x.events|]))
    && (x.phase.Asleep? ==> x.events == [] && !x.done)
    && (x.phase.Woken? ==> x.events != [] || x.done)
    && (x.phase.Ending? ==> x.done && x.events == [] && x.output == [Start] + Datas(x.arrivals) + [Exit(x.code)])
    && (x.phase.Closed? ==> x.done && x.events == [] && x.output == [Start] + Datas(x.arrivals) + [Exit(x.code), Close])
  }

  lemma GoKeepsStream(x: Execution)
    requires StreamOk(x) && HasChild(x)
    ensures StreamOk(Go(x))
  {
    var n := |x.arrivals| - |x.events|;
    if x.events != [] {
      assert x.events[0] == x.arrivals[n..][0] == x.arrivals[n];
      assert x.arrivals[n + 1..] == x.arrivals[n..][1..];
      assert x.arrivals[..n + 1] == x.arrivals[..n] + [x.arrivals[n]];
      assert Datas(x.arrivals[..n + 1]) == Datas(x.arrivals[..n]) + [Data(x.arrivals[n])];
      assert [Start] + Datas(x.arrivals[..n + 1]) == [Start] + Datas(x.arrivals[..n]) + [Data(x.arrivals[n])];
    } else {
      assert x.arrivals[..n] == x.arrivals;
    }
  }

  lemma PullKeepsStream(x: Execution)
    requires StreamOk(x)
    ensures StreamOk(Pulled(x))
  {
    hide Go;
    if x.phase.Yielded? {
      GoKeepsStream(x);
    } else if x.phase.Started? {
      StartedGoes(x);
    } else if x.phase.Ending? {
      assert [Start] + Datas(x.arrivals) + [Exit(x.code)] + [Close] == [Start] + Datas(x.arrivals) + [Exit(x.code), Close];
    }
  }

  lemma ChildClosedKeepsStream(x: Execution, code: int)
    requires StreamOk(x)
    ensures StreamOk(Step(x, ChildClosed(code)))
  {
    hide Datas;
  }

  lemma StepKeepsStream(x: Execution, e: Event)
    requires StreamOk(x)
    ensures StreamOk(Step(x, e))
  {
    if e.ChildClosed? {
      hide Step, StreamOk;
      ChildClosedKeepsStream(x, e.code);
    } else if e.Arrive? {
      hide Step, StreamOk;
      ArriveKeepsStream(x, e.chunk);
    } else {
      hide StreamOk, Go, Pulled;
      if e.Pull? {
        PullKeepsStream(x);
      } else if x.phase.Woken? {
        GoKeepsStream(x);
      }
    }
  }

  lemma StartedGoes(x: Execution)
    requires StreamOk(x) && x.phase.Started?
    ensures StreamOk(Go(x))
  {
    assert [Start] + Datas([]) == [Start];
  }

  lemma ArriveKeepsStream(x: Execution, chunk: Chunk)
    requires StreamOk(x)
    ensures StreamOk(Step(x, Arrive(chunk)))
  {
    if HasChild(x) {
      var n := |x.arrivals| - |x.events|;
      var x' := Step(x, Arrive(chunk));
      assert |x'.arrivals| - |x'.events| == n && x'.arrivals == x.arrivals + [chunk];
      assert (x.arrivals + [chunk])[n..] == x.arrivals[n..] + [chunk];
      assert (x.arrivals + [chunk])[..n] == x.arrivals[..n];
    }
  }

  lemma {:induction false} StreamsAreOk(es: seq<Event>)
    ensures StreamOk(Run(Stream(true, true), es))
    decreases |es|
  {
    if es != [] {
      StreamsAreOk(es[..|es| - 1]);
      StepKeepsStream(Run(Stream(true, true), es[..|es| - 1]), es[|es| - 1]);
    }
  }

  /** For every arrival order: start, every chunk in arrival order, one exit, one close; and no lost wake-up. */
  lemma StreamIsComplete(es: seq<Event>)
    ensures var x := Run(Stream(true, true), es);
            && (x.phase.Closed? ==> x.output == [Start] + Datas(x.arrivals) + [Exit(x.code), Close])
            && (x.phase.Asleep? ==> x.events == [] && !x.done)
  {
    StreamsAreOk(es);
  }

  /** After the child's exit the consumer ends by pulling: each pending chunk, the exit and the close take one pull. */
  lemma {:induction false} ExitedStreamDrains(es: seq<Event>, n: int)
    requires var x := Run(Stream(true, true), es); x.phase.Yielded? && x.done && n == |x.events|
    ensures Run(Stream(true, true), es + seq(n + 2, _ => Pull)).phase.Closed?
    decreases n
  {
    var request := Stream(true, true);
    var one := es + [Pull];
    assert one[..|es|] == es;
    if n == 0 {
      var two := one + [Pull];
      assert two[..|one|] == one;
      assert es + seq(2, _ => Pull) == two;
    } else {
      ExitedStreamDrains(one, n - 1);
      assert es + seq(n + 2, _ => Pull) == one + seq(n + 1, _ => Pull);
    }
  }

  function Closes(output: seq<Element>): int
    decreases |output|
  {
    if output == [] then 0 else Closes(output[..|output| - 1]) + (if output[|output| - 1] == Close then 1 else 0)
  }

  /** On every path - answered, refused, thrown before or after the start - a consumed execution has one close, its last. */
  predicate ClosedOnce(x: Execution) {
    && Closes(x.output) == (if x.phase.Closed? then 1 else 0)
    && (x.phase.Closed? ==> x.output[|x.output| - 1] == Close && |x.output| >= 2)
    && (x.phase.Ending? ==> x.output != [])
  }

  lemma ClosesAppend(output: seq<Element>, e: Element)
    ensures Closes(output + [e]) == Closes(output) + (if e == Close then 1 else 0)
  {
    assert (output + [e])[..|output|] == output;
  }

  lemma EmitClosesOnce(x: Execution, e: Element, phase: Phase)
    requires ClosedOnce(x) && !x.phase.Closed? && (e == Close <==> phase.Closed?)
    requires phase.Closed? ==> x.output != []
    ensures ClosedOnce(Emit(x, e, phase))
  {
    ClosesAppend(x.output, e);
    hide Closes;
  }

  lemma GoClosesOnce(x: Execution)
    requires ClosedOnce(x) && (HasChild(x) || x.phase.Started?)
    ensures ClosedOnce(Go(x))
  {
    if x.events != [] {
      EmitClosesOnce(x.(events := x.events[1..]), Data(x.events[0]), Yielded);
    } else if x.done {
      EmitClosesOnce(x, Exit(x.code), Ending);
    } else {
      hide Closes;
    }
  }

  lemma PullClosesOnce(x: Execution)
    requires ClosedOnce(x)
    ensures ClosedOnce(Pulled(x))
  {
    hide Emit, Go, Closes;
    match x.phase
    case Fresh =>
      EmitClosesOnce(x, Start, Started);
      EmitClosesOnce(x, Answer, Ending);
      EmitClosesOnce(x, Thrown, Ending);
    case Started =>
      GoClosesOnce(x);
      EmitClosesOnce(x, Thrown, Ending);
    case Yielded => GoClosesOnce(x);
    case Ending => EmitClosesOnce(x, Close, Closed);
    case Asleep =>
    case Woken =>
    case Closed =>
  }

  lemma StepClosesOnce(x: Execution, e: Event)
    requires ClosedOnce(x)
    ensures ClosedOnce(Step(x, e))
    ensures x.phase.Closed? ==> Step(x, e) == x
  {
    hide Go, Closes;
    match e
    case Pull =>
      hide Pulled;
      PullClosesOnce(x);
      if x.phase.Closed? {
        ClosedStays(x);
      }
    case Resume =>
      if x.phase.Woken? {
        GoClosesOnce(x);
      }
    case Arrive(_) =>
    case ChildClosed(_) =>
  }

  lemma ClosedStays(x: Execution)
    requires x.phase.Closed?
    ensures Pulled(x) == x
  {
  }

  lemma {:induction false} EveryExecutionClosesOnce(request: Request, es: seq<Event>)
    ensures ClosedOnce(Run(request, es))
    decreases |es|
  {
    hide ClosedOnce, Step;
    if es == [] {
      BeginClosesOnce(request);
    } else {
      EveryExecutionClosesOnce(request, es[..|es| - 1]);
      StepClosesOnce(Run(request, es[..|es| - 1]), es[|es| - 1]);
    }
  }

  lemma BeginClosesOnce(request: Request)
    ensures ClosedOnce(Begin(request))
  {
  }

  /** What holds of an execution at every moment. */
  predicate Good(x: Execution) { ClosedOnce(x) && (x.request == Stream(true, true) ==> StreamOk(x)) }

  lemma InitiallyGood(request: Request)
    ensures Good(Begin(request))
  {
  }

  lemma GoodKept(x: Execution, e: Event)
    requires Good(x)
    ensures Good(Step(x, e))
  {
    RequestStays(x, e);
    hide ClosedOnce, StreamOk, Step;
    StepClosesOnce(x, e);
    if x.request == Stream(true, true) {
      StepKeepsStream(x, e);
    }
  }

  lemma RequestStays(x: Execution, e: Event)
    ensures Step(x, e).request == x.request
  {
  }

  lemma GoodMeans(x: Execution)
    requires Good(x)
    ensures x.phase.Closed? && x.request == Stream(true, true) ==>
      x.output == [Start] + Datas(x.arrivals) + [Exit(x.code), Close]
    ensures x.phase.Closed? ==> Closes(x.output) == 1 && |x.output| >= 2 && x.output[|x.output| - 1] == Close
    ensures x.phase.Asleep? && x.request == Stream(true, true) ==> x.events == [] && !x.done
  {
  }

  // ---------------------------------------------------------------- who arrives, and the other paths

  function Pulls(es: seq<Event>): int
    decreases |es|
  {
    if es == [] then 0 else Pulls(es[..|es| - 1]) + (if es[|es| - 1].Pull? then 1 else 0)
  }

  /** The child runs or its exit is not yet told: the second pull has spawned it, and no exit was emitted. */
  predicate ChildIsThere(es: seq<Event>) {
    Pulls(es) >= 2 && forall e :: e in Run(Stream(true, true), es).output ==> !e.Exit?
  }

  /** The chunks of a run that come from its child, on either channel, in their order. */
  function Arrived(es: seq<Event>): seq<Chunk>
    decreases |es|
  {
    if es == [] then []
    else
      var before, e := es[..|es| - 1], es[|es| - 1];
      Arrived(before) + if e.Arrive? && ChildIsThere(before) then [e.chunk] else []
  }

  /** The code the child closed with, the first time it did. */
  function ClosedWith(es: seq<Event>): Option<int>
    decreases |es|
  {
    if es == [] then None
    else
      var before, e := es[..|es| - 1], es[|es| - 1];
      if ClosedWith(before).None? && e.ChildClosed? && ChildIsThere(before) then Some(e.code) else ClosedWith(before)
  }

  /** How often a stream was pulled before it reached a phase. */
  predicate PhaseAfter(x: Execution, pulls: int) {
    && (x.phase.Fresh? <==> pulls == 0) && (x.phase.Started? ==> pulls == 1)
    && (HasChild(x) || x.phase.Ending? || x.phase.Closed? ==> pulls >= 2)
  }

  lemma {:induction false} PhasesArePulled(es: seq<Event>)
    ensures PhaseAfter(Run(Stream(true, true), es), Pulls(es))
    decreases |es|
  {
    hide Step, PhaseAfter, StreamOk;
    if es != [] {
      PhasesArePulled(es[..|es| - 1]);
      StreamsAreOk(es[..|es| - 1]);
      PhaseStep(Run(Stream(true, true), es[..|es| - 1]), es[|es| - 1], Pulls(es[..|es| - 1]));
    } else {
      NotPulledYet();
    }
  }

  lemma NotPulledYet()
    ensures PhaseAfter(Begin(Stream(true, true)), 0)
  {
  }

  lemma PhaseStep(x: Execution, e: Event, pulls: int)
    requires StreamOk(x) && PhaseAfter(x, pulls)
    ensures PhaseAfter(Step(x, e), pulls + if e.Pull? then 1 else 0)
  {
    hide Go, Emit, Datas;
    GoPhases(x);
    EmitPhases(x);
  }

  lemma GoPhases(x: Execution)
    ensures Go(x).phase.Yielded? || Go(x).phase.Ending? || Go(x).phase.Asleep?
  {
  }

  lemma EmitPhases(x: Execution)
    ensures forall e, phase :: Emit(x, e, phase).phase == phase
  {
  }

  lemma DatasAreNoExit(chunks: seq<Chunk>)
    ensures forall e :: e in [Start] + Datas(chunks) ==> !e.Exit?
  {
  }

  /** The child is there exactly in the phases that take what it sends. */
  lemma ChildIsThereIff(es: seq<Event>)
    ensures ChildIsThere(es) <==> HasChild(Run(Stream(true, true), es))
  {
    var x := Run(Stream(true, true), es);
    StreamsAreOk(es);
    PhasesArePulled(es);
    hide Run, Datas;
    if HasChild(x) {
      DatasAreNoExit(x.arrivals[..|x.arrivals| - |x.events|]);
    } else if x.phase.Ending? || x.phase.Closed? {
      assert Exit(x.code) in x.output;
    }
  }

  /**
    What a stream counts as arrivals are all chunks its child sent, on either channel, until its exit was emitted; and its
    exit code is the one the child closed with, the first time.
   */
  lemma {:induction false} ArrivalsAreAll(es: seq<Event>)
    ensures var x := Run(Stream(true, true), es);
            && x.arrivals == Arrived(es) && (x.done <==> ClosedWith(es).Some?)
            && (x.done ==> x.code == ClosedWith(es).value)
    decreases |es|
  {
    hide ChildIsThere, StreamOk;
    if es != [] {
      var before := es[..|es| - 1];
      ArrivalsAreAll(before);
      ChildIsThereIff(before);
      RequestIsKept(before);
    }
  }

  lemma RequestIsKept(es: seq<Event>)
    ensures Run(Stream(true, true), es).request == Stream(true, true)
  {
    StreamsAreOk(es);
  }

  /** A woken stream goes on: resumed, it emits the next chunk, or the exit when there is none. */
  lemma WokenEmits(es: seq<Event>)
    requires Run(Stream(true, true), es).phase.Woken?
    ensures var x, n := Run(Stream(true, true), es), Step(Run(Stream(true, true), es), Resume);
            if x.events != [] then n.phase.Yielded? && n.output == x.output + [Data(x.events[0])]
            else n.phase.Ending? && n.output == x.output + [Exit(x.code)]
  {
    StreamsAreOk(es);
  }

  /** What a consumer gets of a request that runs no child to its end. */
  function Short(request: Request): seq<Element> {
    match request
    case Stream(pathOk, _) => if pathOk then [Start, Thrown, Close] else [Thrown, Close]
    case Single(ok) => if ok then [Answer, Close] else [Thrown, Close]
    case Unsupported => [Thrown, Close]
  }

  predicate ShortOk(x: Execution) {
    && x.output <= Short(x.request)
    && |x.output| == (match x.phase
                      case Fresh => 0
                      case Started => 1
                      case Ending => |Short(x.request)| - 1
                      case Closed => |Short(x.request)|
                      case _ => -1)
    && (x.phase.Started? ==> x.request.Stream? && x.request.pathOk)
  }

  /**
    Requests other than a stream whose child runs: a refused path or a failed answer is one thrown element, a failed spawn
    is thrown after the start, and every one ends with the close.
   */
  lemma {:induction false} OtherPathsAreShort(request: Request, es: seq<Event>)
    requires request != Stream(true, true)
    ensures Run(request, es).request == request && ShortOk(Run(request, es))
    decreases |es|
  {
    if es != [] {
      OtherPathsAreShort(request, es[..|es| - 1]);
    }
  }
}
