/** The sliding-window detector that reports remote input left without any visible answer. */
module VncLiveness {
  import opened Collections
  import opened Option

  datatype Counters = Counters(keys: int, clicks: int, moves: int, drawOps: int, inBytes: int)
  datatype Delta = Delta(atMs: int, count: Counters)
  datatype Report = Report(stallMs: int, keys: int, clicks: int, moves: int, inBytes: int)

  /** The window length and the number of inputs that must go unanswered; both positive. */
  datatype Limits = Limits(windowMs: int, minInputs: int) {
    predicate Valid() { windowMs > 0 && minInputs > 0 }
  }

  function Minus(a: Counters, b: Counters): Counters {
    Counters(a.keys - b.keys, a.clicks - b.clicks, a.moves - b.moves, a.drawOps - b.drawOps, a.inBytes - b.inBytes)
  }

  /** No counter went back. */
  predicate Forward(d: Counters) { d.keys >= 0 && d.clicks >= 0 && d.moves >= 0 && d.drawOps >= 0 && d.inBytes >= 0 }

  predicate IsInput(d: Delta) { d.count.keys + d.count.clicks > 0 }

  /** The entries newer than `start`, in order. */
  function Newer(s: seq<Delta>, start: int): (r: seq<Delta>)
    ensures |r| <= |s| && (forall d :: d in r <==> d in s && d.atMs > start)
  {
    if s == [] then [] else if s[0].atMs > start then [s[0]] + Newer(s[1..], start) else Newer(s[1..], start)
  }

  function Total(s: seq<Delta>): Counters
    decreases |s|
  {
    if s == [] then Counters(0, 0, 0, 0, 0)
    else
      var t := Total(s[..|s| - 1]);
      var d := s[|s| - 1].count;
      Counters(t.keys + d.keys, t.clicks + d.clicks, t.moves + d.moves, t.drawOps + d.drawOps, t.inBytes + d.inBytes)
  }

  lemma TotalGrows(s: seq<Delta>, n: int)
    requires 0 <= n < |s|
    ensures var t, d := Total(s[..n]), s[n].count;
            Total(s[..n + 1]) ==
              Counters(t.keys + d.keys, t.clicks + d.clicks, t.moves + d.moves, t.drawOps + d.drawOps, t.inBytes + d.inBytes)
  {
    assert s[..n + 1][..n] == s[..n];
  }

  lemma {:induction false} NewerOfNewer(s: seq<Delta>, a: int, b: int)
    requires a <= b
    ensures Newer(Newer(s, a), b) == Newer(s, b)
  {
    if s != [] {
      NewerOfNewer(s[1..], a, b);
      if s[0].atMs > a {
        assert Newer(s, a)[1..] == Newer(s[1..], a);
      }
    }
  }

  lemma NewerOfCons(d: Delta, s: seq<Delta>, a: int)
    ensures Newer([d] + s, a) == (if d.atMs > a then [d] else []) + Newer(s, a)
  {
    assert ([d] + s)[1..] == s;
  }

  lemma {:induction false} NewerOfConcat(s: seq<Delta>, t: seq<Delta>, a: int)
    ensures Newer(s + t, a) == Newer(s, a) + Newer(t, a)
  {
    if s == [] {
      assert s + t == t;
    } else {
      hide Newer;
      var d, rest := s[0], s[1..];
      assert s == [d] + rest;
      NewerOfConcat(rest, t, a);
      NewerOfCons(d, rest, a);
      NewerOfCons(d, rest + t, a);
      Associates([d], rest, t);
      Associates(if d.atMs > a then [d] else [], Newer(rest, a), Newer(t, a));
    }
  }

  /** A sum of forward deltas is zero in a counter exactly when every entry is. */
  lemma {:induction false} NothingDrawn(s: seq<Delta>)
    requires forall d :: d in s ==> Forward(d.count)
    ensures Forward(Total(s))
    ensures Total(s).drawOps == 0 <==> forall d :: d in s ==> d.count.drawOps == 0
    ensures Total(s).inBytes == 0 <==> forall d :: d in s ==> d.count.inBytes == 0
    ensures Total(s).keys + Total(s).clicks > 0 <==> exists d :: d in s && IsInput(d)
    decreases |s|
  {
    if s != [] {
      var n := |s| - 1;
      NothingDrawn(s[..n]);
      assert s == s[..n] + [s[n]];
      assert s[n] in s;
    }
  }

  // ---------------------------------------------------------------- the detector

  datatype Detector = Detector(last: Option<Counters>, samples: seq<Delta>, coveredSince: Option<int>, fired: bool)

  const Idle: Detector := Detector(None, [], None, false)

  function Rebaseline(now: int, c: Counters): Detector { Detector(Some(c), [], Some(now), false) }

  /** The time of the oldest input in the window; `now` when there is none. */
  function OldestInput(s: seq<Delta>, now: int): int {
    if s == [] then now else if IsInput(s[0]) then s[0].atMs else OldestInput(s[1..], now)
  }

  /** One sample, and the report it makes. */
  function Sampled(limits: Limits, d: Detector, now: int, c: Counters): (Detector, Option<Report>) {
    if d.last.None? || !Forward(Minus(c, d.last.value)) then (Rebaseline(now, c), None)
    else
      var delta := Delta(now, Minus(c, d.last.value));
      var samples := Newer(d.samples + [delta], now - limits.windowMs);
      var fired := d.fired && delta.count.drawOps == 0;
      var next := Detector(Some(c), samples, d.coveredSince, fired);
      var total := Total(samples);
      if fired || d.coveredSince.None? || now - d.coveredSince.value < limits.windowMs
        || total.keys + total.clicks < limits.minInputs || total.drawOps > 0 || total.inBytes > 0 then (next, None)
      else
        (next.(fired := true),
         Some(Report(now - OldestInput(samples, now), total.keys, total.clicks, total.moves, total.inBytes)))
  }

  method Sums(window: seq<Delta>) returns (keys: int, clicks: int, moves: int, drawOps: int, inBytes: int)
    ensures Counters(keys, clicks, moves, drawOps, inBytes) == Total(window)
  {
    keys, clicks, moves, drawOps, inBytes := 0, 0, 0, 0, 0;
    for n := 0 to |window|
      invariant Counters(keys, clicks, moves, drawOps, inBytes) == Total(window[..n])
    {
      TotalGrows(window, n);
      var entry := window[n].count;
      keys, clicks, moves := keys + entry.keys, clicks + entry.clicks, moves + entry.moves;
      drawOps, inBytes := drawOps + entry.drawOps, inBytes + entry.inBytes;
    }
    assert window[..|window|] == window;
  }

  class VncLivenessDetector {
    const limits: Limits
    var last: Option<Counters>
    var samples: seq<Delta>
    var coveredSinceMs: Option<int>
    var episodeFired: bool
    ghost var trace: Trace

    /** The samples are the history seen since the last baseline, restricted to the window. */
    ghost predicate Valid()
      reads this
    {
      limits.Valid() && trace.d == Abs() && TraceOk(limits, trace)
    }

    ghost function Abs(): Detector
      reads this
    {
      Detector(last, samples, coveredSinceMs, episodeFired)
    }

    constructor (limits: Limits)
      requires limits.Valid()
      ensures Valid() && Abs() == Idle && this.limits == limits && trace == Begin
    {
      this.limits := limits;
      trace := Begin;
      last, samples, coveredSinceMs, episodeFired := None, [], None, false;
    }

    method Reset()
      requires Valid()
      modifies this
      ensures Valid() && Abs() == Idle && trace == Next(limits, old(trace), Event.Reset)
    {
      trace := Next(limits, trace, Event.Reset);
      Clear();
    }

    method Clear()
      modifies this`last, this`samples, this`coveredSinceMs, this`episodeFired
      ensures Abs() == Idle
    {
      last, samples, coveredSinceMs, episodeFired := None, [], None, false;
    }

    method RebaselineAt(now: int, c: Counters)
      modifies this`last, this`samples, this`coveredSinceMs, this`episodeFired
      ensures Abs() == Rebaseline(now, c)
    {
      Clear();
      last := Some(c);
      coveredSinceMs := Some(now);
    }

    /** Reports exactly when a whole window since the baseline saw enough inputs, no draw and no byte, for the first time. */
    method Sample(now: int, c: Counters) returns (report: Option<Report>)
      requires Valid() && trace.clock <= now
      modifies this
      ensures Valid() && (Abs(), report) == Sampled(limits, old(Abs()), now, c)
      ensures trace == Next(limits, old(trace), Event.Sample(now, c)) && trace.report == report
      ensures report.Some? ==>
        Unanswered(limits, Newer(trace.history, now - limits.windowMs), now, report.value)
      ensures report.Some? <==> Due(limits, trace, old(trace).reported)
    {
      hide Total, Newer, OldestInput, TraceOk, Unanswered, Due;
      SampleIsSound(limits, trace, now, c);
      SampleReportsIff(limits, trace, now, c);
      trace := Next(limits, trace, Event.Sample(now, c));
      if last.None? {
        RebaselineAt(now, c);
        return None;
      }
      var delta := Delta(now, Minus(c, last.value));
      if !Forward(delta.count) {
        RebaselineAt(now, c);
        return None;
      }
      last := Some(c);
      samples := Newer(samples + [delta], now - limits.windowMs);
      if delta.count.drawOps > 0 {
        episodeFired := false;
      }
      if episodeFired || coveredSinceMs.None? || now - coveredSinceMs.value < limits.windowMs {
        return None;
      }
      var keys, clicks, moves, drawOps, inBytes := Sums(samples);
      if keys + clicks < limits.minInputs || drawOps > 0 || inBytes > 0 {
        return None;
      }
      episodeFired := true;
      report := Some(Report(now - OldestInput(samples, now), keys, clicks, moves, inBytes));
    }
  }

  // ---------------------------------------------------------------- runs

  datatype Event = Reset | Sample(now: int, c: Counters)

  /**
    What a run has seen: the detector; the last counters, the full history since the last baseline, and that baseline;
    the clock; the last sample's report; and whether a report was made since the last draw or baseline.
   */
  datatype Trace = Trace(d: Detector, seen: Option<Counters>, history: seq<Delta>, baseline: Option<int>, clock: int,
                         report: Option<Report>, reported: bool)

  const Begin: Trace := Trace(Idle, None, [], None, 0, None, false)

  function Next(limits: Limits, t: Trace, e: Event): Trace {
    match e
    case Reset => Trace(Idle, None, [], None, t.clock, None, false)
    case Sample(now, c) =>
      var (d, report) := Sampled(limits, t.d, now, c);
      if t.seen.None? || !Forward(Minus(c, t.seen.value)) then Trace(d, Some(c), [], Some(now), now, report, false)
      else
        var delta := Delta(now, Minus(c, t.seen.value));
        Trace(d, Some(c), t.history + [delta], t.baseline, now, report,
              report.Some? || (t.reported && delta.count.drawOps == 0))
  }

  function Run(limits: Limits, es: seq<Event>): Trace
    decreases |es|
  {
    if es == [] then Begin else Next(limits, Run(limits, es[..|es| - 1]), es[|es| - 1])
  }

  /** The clock never goes back. */
  predicate Monotone(limits: Limits, es: seq<Event>)
    decreases |es|
  {
    es == [] ||
    (Monotone(limits, es[..|es| - 1]) && (es[|es| - 1].Sample? ==> Run(limits, es[..|es| - 1]).clock <= es[|es| - 1].now))
  }

  predicate TraceOk(limits: Limits, t: Trace) {
    && t.d.samples == Newer(t.history, t.clock - limits.windowMs)
    && t.d.coveredSince == t.baseline && t.d.last == t.seen && t.d.fired == t.reported
    && (t.seen.Some? <==> t.baseline.Some?)
    && (forall i :: 0 <= i < |t.history| ==> Forward(t.history[i].count) && t.history[i].atMs <= t.clock)
    && (t.baseline.None? ==> t.history == [] && !t.reported)
  }

  lemma NextKeepsTrace(limits: Limits, t: Trace, e: Event)
    requires TraceOk(limits, t) && (e.Sample? ==> t.clock <= e.now)
    ensures TraceOk(limits, Next(limits, t, e))
  {
    hide Newer, Total, OldestInput;
    if e.Sample? && t.d.last.Some? && Forward(Minus(e.c, t.d.last.value)) {
      var delta := Delta(e.now, Minus(e.c, t.d.last.value));
      var start := e.now - limits.windowMs;
      NewerOfConcat(t.d.samples, [delta], start);
      NewerOfConcat(t.history, [delta], start);
      NewerOfNewer(t.history, t.clock - limits.windowMs, start);
      assert Next(limits, t, e).history == t.history + [delta];
    }
  }

  /** The pruned samples are the history since the last baseline, restricted to the window. */
  lemma {:induction false} SamplesAreTheWindow(limits: Limits, es: seq<Event>)
    requires Monotone(limits, es)
    ensures TraceOk(limits, Run(limits, es))
    decreases |es|
  {
    if es != [] {
      SamplesAreTheWindow(limits, es[..|es| - 1]);
      NextKeepsTrace(limits, Run(limits, es[..|es| - 1]), es[|es| - 1]);
    }
  }

  lemma {:induction false} OldestInputIsFirst(s: seq<Delta>, now: int)
    requires exists d :: d in s && IsInput(d)
    ensures exists i :: 0 <= i < |s| && IsInput(s[i]) && OldestInput(s, now) == s[i].atMs
                        && forall k :: 0 <= k < i ==> !IsInput(s[k])
  {
    if !IsInput(s[0]) {
      assert forall d :: d in s && IsInput(d) ==> d in s[1..];
      OldestInputIsFirst(s[1..], now);
      var i :| 0 <= i < |s[1..]| && IsInput(s[1..][i]) && OldestInput(s[1..], now) == s[1..][i].atMs
               && forall k :: 0 <= k < i ==> !IsInput(s[1..][k]);
      assert s[i + 1] == s[1..][i];
      assert forall k :: 1 <= k < i + 1 ==> s[k] == s[1..][k - 1];
    }
  }

  /** What a report says about the detector that made it. */
  predicate ReportOf(limits: Limits, d: Detector, now: int, r: Report) {
    var total := Total(d.samples);
    && d.coveredSince.Some? && d.coveredSince.value + limits.windowMs <= now
    && total.keys + total.clicks >= limits.minInputs && total.drawOps <= 0 && total.inBytes <= 0
    && r == Report(now - OldestInput(d.samples, now), total.keys, total.clicks, total.moves, total.inBytes)
  }

  lemma SampledReports(limits: Limits, d: Detector, now: int, c: Counters)
    requires Sampled(limits, d, now, c).1.Some?
    ensures ReportOf(limits, Sampled(limits, d, now, c).0, now, Sampled(limits, d, now, c).1.value)
  {
    hide Total, Newer, OldestInput;
  }

  /** Nothing was drawn or received in the window, although there was input; the stall is that of its oldest input. */
  predicate Unanswered(limits: Limits, window: seq<Delta>, now: int, r: Report) {
    && (forall d :: d in window ==> d.count.drawOps == 0 && d.count.inBytes == 0)
    && r.keys + r.clicks >= limits.minInputs
    && r.keys == Total(window).keys && r.clicks == Total(window).clicks && r.moves == Total(window).moves && r.inBytes == 0
    && 0 <= r.stallMs < limits.windowMs
    && exists i :: 0 <= i < |window| && IsInput(window[i]) && r.stallMs == now - window[i].atMs
                   && forall k :: 0 <= k < i ==> !IsInput(window[k])
  }

  /** The entries of the window: recent, and no counter went back. */
  predicate Recent(limits: Limits, window: seq<Delta>, now: int) {
    forall d :: d in window ==> now - limits.windowMs < d.atMs <= now && Forward(d.count)
  }

  lemma WindowIsRecent(limits: Limits, t: Trace)
    requires TraceOk(limits, t)
    ensures Recent(limits, t.d.samples, t.clock)
  {
    hide Total;
  }

  lemma StallIsOfOldestInput(limits: Limits, window: seq<Delta>, now: int)
    requires Recent(limits, window, now) && exists d :: d in window && IsInput(d)
    ensures var stall := now - OldestInput(window, now);
            && 0 <= stall < limits.windowMs
            && exists i :: 0 <= i < |window| && IsInput(window[i]) && stall == now - window[i].atMs
                           && forall k :: 0 <= k < i ==> !IsInput(window[k])
  {
    OldestInputIsFirst(window, now);
    hide OldestInput;
  }

  lemma NothingAnswered(limits: Limits, window: seq<Delta>, now: int)
    requires Recent(limits, window, now) && Total(window).drawOps <= 0 && Total(window).inBytes <= 0
    ensures Total(window).inBytes == 0 && forall d :: d in window ==> d.count.drawOps == 0 && d.count.inBytes == 0
    ensures Total(window).keys + Total(window).clicks > 0 ==> exists d :: d in window && IsInput(d)
  {
    hide Total, IsInput;
    NothingDrawn(window);
  }

  lemma ReportIsUnanswered(limits: Limits, t: Trace)
    requires limits.Valid() && TraceOk(limits, t) && t.report.Some? && ReportOf(limits, t.d, t.clock, t.report.value)
    ensures Unanswered(limits, t.d.samples, t.clock, t.report.value)
  {
    hide TraceOk, Total, OldestInput, Recent, Newer, IsInput;
    WindowIsRecent(limits, t);
    NothingAnswered(limits, t.d.samples, t.clock);
    StallIsOfOldestInput(limits, t.d.samples, t.clock);
  }

  /**
    Every report: the whole window lies after the baseline; in it there were enough inputs and no draw and no byte; and
    the stall is the age of the oldest input of the window.
   */
  lemma ReportsAreSound(limits: Limits, es: seq<Event>, e: Event)
    requires limits.Valid() && Monotone(limits, es + [e]) && Run(limits, es + [e]).report.Some?
    ensures var t := Run(limits, es + [e]);
            && e.Sample? && t.clock == e.now
            && t.baseline.Some? && t.baseline.value + limits.windowMs <= t.clock
            && Unanswered(limits, Newer(t.history, t.clock - limits.windowMs), t.clock, t.report.value)
  {
    hide Newer, Total, OldestInput, Sampled, ReportOf, Unanswered, TraceOk, Monotone;
    SamplesAreTheWindow(limits, es + [e]);
    assert (es + [e])[..|es|] == es;
    var t, t' := Run(limits, es), Run(limits, es + [e]);
    assert t' == Next(limits, t, e);
    hide Run;
    NextReports(limits, t, e);
    ReportIsUnanswered(limits, t');
    ReportIsCovered(limits, t');
  }

  lemma NextReports(limits: Limits, t: Trace, e: Event)
    requires Next(limits, t, e).report.Some?
    ensures e.Sample? && Next(limits, t, e).clock == e.now
    ensures var t' := Next(limits, t, e); ReportOf(limits, t'.d, t'.clock, t'.report.value)
  {
    hide Sampled, ReportOf;
    SampledReports(limits, t.d, e.now, e.c);
  }

  lemma ReportIsCovered(limits: Limits, t: Trace)
    requires TraceOk(limits, t) && t.report.Some? && ReportOf(limits, t.d, t.clock, t.report.value)
    ensures t.baseline.Some? && t.baseline.value + limits.windowMs <= t.clock
    ensures t.d.samples == Newer(t.history, t.clock - limits.windowMs)
  {
    hide Total, Newer, OldestInput;
  }

  lemma SampleIsSound(limits: Limits, t: Trace, now: int, c: Counters)
    requires limits.Valid() && TraceOk(limits, t) && t.clock <= now
    ensures var n := Next(limits, t, Event.Sample(now, c));
            && (n.d, n.report) == Sampled(limits, t.d, now, c) && TraceOk(limits, n) && n.clock == now
            && (n.report.Some? ==>
                  && n.baseline.Some? && n.baseline.value + limits.windowMs <= now
                  && Unanswered(limits, Newer(n.history, now - limits.windowMs), now, n.report.value))
  {
    hide Newer, Total, OldestInput, Sampled, ReportOf, Unanswered, TraceOk;
    var n := Next(limits, t, Event.Sample(now, c));
    NextKeepsTrace(limits, t, Event.Sample(now, c));
    if n.report.Some? {
      NextReports(limits, t, Event.Sample(now, c));
      ReportIsUnanswered(limits, n);
      ReportIsCovered(limits, n);
    }
  }

  /** The last event started over, or its sample saw a draw. */
  predicate DrawnOrRestarted(t: Trace) {
    t.history == [] || t.history[|t.history| - 1].count.drawOps > 0
  }

  predicate Reported(limits: Limits, es: seq<Event>, n: int)
    requires 0 <= n <= |es|
  {
    Run(limits, es[..n]).report.Some?
  }

  /** The detector keeps the last counters and remembers a report until a draw or a new baseline. */
  lemma {:induction false} Remembers(limits: Limits, es: seq<Event>)
    ensures Run(limits, es).d.last == Run(limits, es).seen && Run(limits, es).d.fired == Run(limits, es).reported
    decreases |es|
  {
    if es != [] {
      Remembers(limits, es[..|es| - 1]);
      hide Newer, Total, OldestInput, Run;
    }
  }

  lemma FiredStep(limits: Limits, t: Trace, e: Event)
    requires t.d.last == t.seen
    requires t.d.fired && !DrawnOrRestarted(Next(limits, t, e))
    ensures Next(limits, t, e).d.fired && Next(limits, t, e).report.None?
  {
    hide Newer, Total, OldestInput;
  }

  /** An episode stays fired until a draw or a new baseline. */
  lemma {:induction false} FiredStays(limits: Limits, es: seq<Event>, i: int, j: int)
    requires 0 <= i <= j <= |es| && Run(limits, es[..i]).d.fired
    requires forall k :: i < k <= j ==> !DrawnOrRestarted(Run(limits, es[..k]))
    ensures Run(limits, es[..j]).d.fired
    ensures i < j ==> Run(limits, es[..j]).report.None?
    decreases j - i
  {
    hide Next, DrawnOrRestarted;
    if i < j {
      FiredStays(limits, es, i, j - 1);
      Remembers(limits, es[..j - 1]);
      assert es[..j][..j - 1] == es[..j - 1];
      FiredStep(limits, Run(limits, es[..j - 1]), es[j - 1]);
    }
  }

  lemma RunExtends(limits: Limits, es: seq<Event>, e: Event)
    ensures Run(limits, es + [e]) == Next(limits, Run(limits, es), e)
  {
    assert (es + [e])[..|es|] == es;
  }

  /** The sample that makes a report sees no draw itself. */
  lemma ReportSeesNoDraw(limits: Limits, es: seq<Event>, e: Event)
    requires limits.Valid() && Monotone(limits, es + [e]) && Run(limits, es + [e]).report.Some?
    ensures !DrawnOrRestarted(Run(limits, es + [e]))
  {
    hide Newer, Next, Unanswered, Run, Monotone, DrawnOrRestarted;
    ReportsAreSound(limits, es, e);
    RunExtends(limits, es, e);
    Remembers(limits, es);
    NoDrawInWindow(limits, Run(limits, es), e);
  }

  lemma ReportFires(limits: Limits, es: seq<Event>)
    requires Run(limits, es).report.Some?
    ensures es != [] && Run(limits, es).d.fired
  {
    hide Newer, Total, OldestInput;
  }

  lemma NoDrawInWindow(limits: Limits, t: Trace, e: Event)
    requires t.d.last == t.seen
    requires limits.Valid() && Next(limits, t, e).report.Some? && e.Sample? && Next(limits, t, e).clock == e.now
    requires var n := Next(limits, t, e);
             Unanswered(limits, Newer(n.history, n.clock - limits.windowMs), n.clock, n.report.value)
    ensures !DrawnOrRestarted(Next(limits, t, e))
  {
    var n := Next(limits, t, e);
    ReportIsNoRestart(limits, t, e);
    var last := n.history[|n.history| - 1];
    assert last in n.history && last in Newer(n.history, n.clock - limits.windowMs);
  }

  lemma ReportIsNoRestart(limits: Limits, t: Trace, e: Event)
    requires t.d.last == t.seen && Next(limits, t, e).report.Some?
    ensures var n := Next(limits, t, e); n.history != [] && n.history[|n.history| - 1].atMs == n.clock
  {
    hide Newer, Total, OldestInput;
  }

  /**
    Between two reports there is a draw or a new baseline; and with a clock that never goes back, one strictly between
    them.
   */
  lemma ReportsAreSeparated(limits: Limits, es: seq<Event>, i: int, j: int)
    requires 0 < i < j <= |es| && Reported(limits, es, i) && Reported(limits, es, j)
    ensures exists k :: i < k <= j && DrawnOrRestarted(Run(limits, es[..k]))
    ensures limits.Valid() && Monotone(limits, es) ==> exists k :: i < k < j && DrawnOrRestarted(Run(limits, es[..k]))
  {
    hide DrawnOrRestarted, Monotone, Run;
    ReportFires(limits, es[..i]);
    if forall k :: i < k <= j ==> !DrawnOrRestarted(Run(limits, es[..k])) {
      FiredStays(limits, es, i, j);
      assert false;
    }
    if limits.Valid() && Monotone(limits, es) {
      MonotonePrefix(limits, es, j);
      assert es[..j] == es[..j - 1] + [es[j - 1]];
      ReportSeesNoDraw(limits, es[..j - 1], es[j - 1]);
    }
  }

  lemma {:induction false} MonotonePrefix(limits: Limits, es: seq<Event>, n: int)
    requires 0 <= n <= |es| && Monotone(limits, es)
    ensures Monotone(limits, es[..n])
    decreases |es|
  {
    if n < |es| {
      MonotonePrefix(limits, es[..|es| - 1], n);
      assert es[..|es| - 1][..n] == es[..n];
    } else {
      assert es[..n] == es;
    }
  }

  // ---------------------------------------------------------------- exactly when a sample reports

  /** Enough input, and neither a draw nor a byte. */
  predicate Stalled(limits: Limits, window: seq<Delta>) {
    && Total(window).keys + Total(window).clicks >= limits.minInputs
    && forall d :: d in window ==> d.count.drawOps == 0 && d.count.inBytes == 0
  }

  /** The whole window lies after the baseline and is stalled, and nothing was reported since the last draw or baseline. */
  predicate Due(limits: Limits, n: Trace, reported: bool) {
    && n.baseline.Some? && n.baseline.value + limits.windowMs <= n.clock
    && Stalled(limits, Newer(n.history, n.clock - limits.windowMs))
    && !reported
  }

  lemma StalledIff(limits: Limits, window: seq<Delta>)
    requires forall d :: d in window ==> Forward(d.count)
    ensures Stalled(limits, window) <==>
            Total(window).keys + Total(window).clicks >= limits.minInputs && Total(window).drawOps <= 0
            && Total(window).inBytes <= 0
  {
    hide Total, IsInput;
    NothingDrawn(window);
  }

  lemma SampleReportsIff(limits: Limits, t: Trace, now: int, c: Counters)
    requires limits.Valid() && TraceOk(limits, t) && t.clock <= now
    ensures var n := Next(limits, t, Event.Sample(now, c)); n.report.Some? <==> Due(limits, n, t.reported)
  {
    hide Newer, Total, OldestInput, Stalled;
    var e := Event.Sample(now, c);
    var n := Next(limits, t, e);
    NextKeepsTrace(limits, t, e);
    StalledIff(limits, n.d.samples);
    if t.seen.Some? && Forward(Minus(c, t.seen.value)) && c.drawOps != t.seen.value.drawOps {
      DrawIsNoStall(limits, n, Delta(now, Minus(c, t.seen.value)));
    }
  }

  lemma DrawIsNoStall(limits: Limits, n: Trace, d: Delta)
    requires d in n.history && d.atMs > n.clock - limits.windowMs && d.count.drawOps != 0
    ensures !Stalled(limits, Newer(n.history, n.clock - limits.windowMs))
  {
    hide Total;
  }

  /** A report was made before, and since then there was neither a draw nor a new baseline. */
  ghost predicate ReportedSince(limits: Limits, es: seq<Event>) {
    exists k :: 0 < k <= |es| && Reported(limits, es, k)
                && forall m :: k < m <= |es| ==> !DrawnOrRestarted(Run(limits, es[..m]))
  }

  /** A sample that starts over, or sees a draw, forgets the report; any other remembers it. */
  lemma ReportedStep(limits: Limits, t: Trace, e: Event)
    requires t.d.last == t.seen
    ensures var n := Next(limits, t, e);
            && (n.reported <==> n.report.Some? || (t.reported && !DrawnOrRestarted(n)))
  {
    hide Newer, Total, OldestInput;
    if e.Sample? && t.seen.Some? {
      assert Forward(Minus(e.c, t.seen.value)) ==> Minus(e.c, t.seen.value).drawOps >= 0;
    }
  }

  lemma {:induction false} ReportedIff(limits: Limits, es: seq<Event>)
    ensures Run(limits, es).reported <==> ReportedSince(limits, es)
    decreases |es|
  {
    hide Next, DrawnOrRestarted, Run;
    if es == [] {
      EmptyRun(limits, es);
    } else {
      var before, e := es[..|es| - 1], es[|es| - 1];
      assert es == before + [e] && es[..|es|] == es;
      ReportedIff(limits, before);
      Remembers(limits, before);
      RunExtends(limits, before, e);
      ReportedStep(limits, Run(limits, before), e);
      assert forall k :: 0 <= k <= |before| ==> before[..k] == es[..k];
      assert forall k :: 0 < k <= |before| ==> Reported(limits, es, k) == Reported(limits, before, k);
      if Run(limits, es).reported {
        if Run(limits, es).report.Some? {
          assert Reported(limits, es, |es|);
        } else {
          var k :| 0 < k <= |before| && Reported(limits, before, k)
                   && forall m :: k < m <= |before| ==> !DrawnOrRestarted(Run(limits, before[..m]));
          assert Reported(limits, es, k);
        }
      }
    }
  }

  lemma EmptyRun(limits: Limits, es: seq<Event>)
    requires es == []
    ensures Run(limits, es) == Begin
  {
  }

  /**
    With a clock that never goes back a sample reports exactly when the whole window lies after the baseline, it holds
    enough inputs and no draw and no byte, and no report was made since the last draw or new baseline.
   */
  lemma ReportsIff(limits: Limits, es: seq<Event>, now: int, c: Counters)
    requires limits.Valid() && Monotone(limits, es + [Event.Sample(now, c)])
    ensures var n := Run(limits, es + [Event.Sample(now, c)]);
            n.report.Some? <==> Due(limits, n, ReportedSince(limits, es))
  {
    var e := Event.Sample(now, c);
    assert (es + [e])[..|es|] == es;
    assert Monotone(limits, es) && Run(limits, es).clock <= now;
    hide Run, Monotone, TraceOk, Next, Due, ReportedSince;
    SamplesAreTheWindow(limits, es);
    SampleReportsIff(limits, Run(limits, es), now, c);
    ReportedIff(limits, es);
    RunExtends(limits, es, e);
  }
}
