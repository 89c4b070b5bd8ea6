/** The metrics of one circuit: eleven rolling counters fed from command events, and the
    two timings.  What a report adds to each counter is `BuildResult`; all counters take a
    report at one common second, but a counter that gains nothing is left untouched, so the
    rings drift apart and only their readings stay consistent. */
module Metrics {
  import opened Common
  import opened RollingNumber
  import T = Timing

  datatype Primary =
    | Success | Failure | Rejected | ShortCircuit | TimedOut | ContextCanceled | ContextDeadlineExceeded
    | Unrecognised

  datatype Secondary = NoFallback | FallbackSuccess | FallbackFailure

  datatype Counter =
    | Requests | Errors | Successes | Failures | Rejects | ShortCircuits | Timeouts
    | FallbackSuccesses | FallbackFailures | ContextsCanceled | ContextsDeadlineExceeded

  /** One value for each counter: the counts of a report, or the rings. */
  datatype Fields<T> = Fields(
    requests: T, errors: T, successes: T, failures: T, rejects: T, shortCircuits: T, timeouts: T,
    fallbackSuccesses: T, fallbackFailures: T, contextCanceled: T, contextDeadlineExceeded: T)
  {
    function Get(c: Counter): T {
      match c
      case Requests => requests
      case Errors => errors
      case Successes => successes
      case Failures => failures
      case Rejects => rejects
      case ShortCircuits => shortCircuits
      case Timeouts => timeouts
      case FallbackSuccesses => fallbackSuccesses
      case FallbackFailures => fallbackFailures
      case ContextsCanceled => contextCanceled
      case ContextsDeadlineExceeded => contextDeadlineExceeded
    }
  }

  type Rings = Fields<Ring>

  const EMPTY_RINGS: Rings := Fields(EMPTY, EMPTY, EMPTY, EMPTY, EMPTY, EMPTY, EMPTY, EMPTY, EMPTY, EMPTY, EMPTY)

  function BuildResult(primary: Primary, secondary: Secondary): Fields<int> {
    var r := Fields(1, 0, 0, 0, 0, 0, 0, 0, 0, 0, 0);
    var r := match primary
      case Success => r.(successes := 1)
      case Failure => r.(failures := 1, errors := 1)
      case Rejected => r.(rejects := 1, errors := 1)
      case ShortCircuit => r.(shortCircuits := 1, errors := 1)
      case TimedOut => r.(timeouts := 1, errors := 1)
      case ContextCanceled => r.(contextCanceled := 1)
      case ContextDeadlineExceeded => r.(contextDeadlineExceeded := 1)
      case Unrecognised => r;
    match secondary
    case NoFallback => r
    case FallbackSuccess => r.(fallbackSuccesses := 1)
    case FallbackFailure => r.(fallbackFailures := 1)
  }

  function BumpAll(rings: Rings, epoch: nat, r: Fields<int>): Rings {
    Fields(
      Bump(rings.requests, epoch, r.requests),
      Bump(rings.errors, epoch, r.errors),
      Bump(rings.successes, epoch, r.successes),
      Bump(rings.failures, epoch, r.failures),
      Bump(rings.rejects, epoch, r.rejects),
      Bump(rings.shortCircuits, epoch, r.shortCircuits),
      Bump(rings.timeouts, epoch, r.timeouts),
      Bump(rings.fallbackSuccesses, epoch, r.fallbackSuccesses),
      Bump(rings.fallbackFailures, epoch, r.fallbackFailures),
      Bump(rings.contextCanceled, epoch, r.contextCanceled),
      Bump(rings.contextDeadlineExceeded, epoch, r.contextDeadlineExceeded))
  }

  /** What a report adds to the first seven counters, and to the other four. */
  function WithoutRest(r: Fields<int>): Fields<int> {
    r.(fallbackSuccesses := 0, fallbackFailures := 0, contextCanceled := 0, contextDeadlineExceeded := 0)
  }

  function WithoutOutcome(r: Fields<int>): Fields<int> {
    r.(requests := 0, errors := 0, successes := 0, failures := 0, rejects := 0, shortCircuits := 0, timeouts := 0)
  }

  // ---------- the collector in memory ----------

  /** The clock readings of the two timings' `Add`, taken only when timing is enabled. */
  datatype TimingClock = TimingClock(total1: nat, total2: nat, run1: nat, run2: nat)

  /** A timing after a report, which takes its duration only when timing is enabled. */
  function Timed(s: T.State, enabled: bool, duration: int, t1: nat, t2: nat): T.State {
    if enabled then s.(buckets := T.Added(s.buckets, duration, t1, t2)) else s
  }

  class DefaultMetricCollector {
    const numRequests: Number
    const errors: Number
    const successes: Number
    const failures: Number
    const rejects: Number
    const shortCircuits: Number
    const timeouts: Number
    const contextCanceled: Number
    const contextDeadlineExceeded: Number
    const fallbackSuccesses: Number
    const fallbackFailures: Number
    const totalDuration: T.Timing
    const runDuration: T.Timing

    /** Each ring has an array of its own. */
    ghost predicate Valid() {
      && numRequests.Valid()
      && errors.Valid()
      && successes.Valid()
      && failures.Valid()
      && rejects.Valid()
      && shortCircuits.Valid()
      && timeouts.Valid()
      && fallbackSuccesses.Valid()
      && fallbackFailures.Valid()
      && contextCanceled.Valid()
      && contextDeadlineExceeded.Valid()
      && numRequests.buckets != errors.buckets && numRequests.buckets != successes.buckets
      && numRequests.buckets != failures.buckets && numRequests.buckets != rejects.buckets
      && numRequests.buckets != shortCircuits.buckets && numRequests.buckets != timeouts.buckets
      && numRequests.buckets != fallbackSuccesses.buckets && numRequests.buckets != fallbackFailures.buckets
      && numRequests.buckets != contextCanceled.buckets
      && numRequests.buckets != contextDeadlineExceeded.buckets
      && errors.buckets != successes.buckets && errors.buckets != failures.buckets
      && errors.buckets != rejects.buckets && errors.buckets != shortCircuits.buckets
      && errors.buckets != timeouts.buckets && errors.buckets != fallbackSuccesses.buckets
      && errors.buckets != fallbackFailures.buckets && errors.buckets != contextCanceled.buckets
      && errors.buckets != contextDeadlineExceeded.buckets
      && successes.buckets != failures.buckets && successes.buckets != rejects.buckets
      && successes.buckets != shortCircuits.buckets && successes.buckets != timeouts.buckets
      && successes.buckets != fallbackSuccesses.buckets && successes.buckets != fallbackFailures.buckets
      && successes.buckets != contextCanceled.buckets && successes.buckets != contextDeadlineExceeded.buckets
      && failures.buckets != rejects.buckets && failures.buckets != shortCircuits.buckets
      && failures.buckets != timeouts.buckets && failures.buckets != fallbackSuccesses.buckets
      && failures.buckets != fallbackFailures.buckets && failures.buckets != contextCanceled.buckets
      && failures.buckets != contextDeadlineExceeded.buckets
      && rejects.buckets != shortCircuits.buckets && rejects.buckets != timeouts.buckets
      && rejects.buckets != fallbackSuccesses.buckets && rejects.buckets != fallbackFailures.buckets
      && rejects.buckets != contextCanceled.buckets && rejects.buckets != contextDeadlineExceeded.buckets
      && shortCircuits.buckets != timeouts.buckets && shortCircuits.buckets != fallbackSuccesses.buckets
      && shortCircuits.buckets != fallbackFailures.buckets && shortCircuits.buckets != contextCanceled.buckets
      && shortCircuits.buckets != contextDeadlineExceeded.buckets
      && timeouts.buckets != fallbackSuccesses.buckets && timeouts.buckets != fallbackFailures.buckets
      && timeouts.buckets != contextCanceled.buckets && timeouts.buckets != contextDeadlineExceeded.buckets
      && fallbackSuccesses.buckets != fallbackFailures.buckets
      && fallbackSuccesses.buckets != contextCanceled.buckets
      && fallbackSuccesses.buckets != contextDeadlineExceeded.buckets
      && fallbackFailures.buckets != contextCanceled.buckets
      && fallbackFailures.buckets != contextDeadlineExceeded.buckets
      && contextCanceled.buckets != contextDeadlineExceeded.buckets
      && totalDuration != runDuration
    }

    ghost function Footprint(): set<object> {
      {numRequests.buckets, errors.buckets, successes.buckets, failures.buckets, rejects.buckets,
       shortCircuits.buckets, timeouts.buckets, fallbackSuccesses.buckets, fallbackFailures.buckets,
       contextCanceled.buckets, contextDeadlineExceeded.buckets}
    }

    ghost function Contents(): Rings
      requires Valid()
      reads Footprint()
    {
      Fields(numRequests.Contents(), errors.Contents(), successes.Contents(), failures.Contents(),
             rejects.Contents(), shortCircuits.Contents(), timeouts.Contents(),
             fallbackSuccesses.Contents(), fallbackFailures.Contents(),
             contextCanceled.Contents(), contextDeadlineExceeded.Contents())
    }

    constructor ()
      ensures Valid() && fresh(totalDuration) && fresh(runDuration)
      ensures fresh(numRequests.buckets) && fresh(errors.buckets) && fresh(successes.buckets)
      ensures fresh(failures.buckets) && fresh(rejects.buckets) && fresh(shortCircuits.buckets)
      ensures fresh(timeouts.buckets) && fresh(fallbackSuccesses.buckets) && fresh(fallbackFailures.buckets)
      ensures fresh(contextCanceled.buckets) && fresh(contextDeadlineExceeded.buckets)
      ensures Contents() == EMPTY_RINGS && totalDuration.Contents() == T.INITIAL == runDuration.Contents()
    {
      numRequests := new Number();
      errors := new Number();
      successes := new Number();
      failures := new Number();
      rejects := new Number();
      shortCircuits := new Number();
      timeouts := new Number();
      contextCanceled := new Number();
      contextDeadlineExceeded := new Number();
      fallbackSuccesses := new Number();
      fallbackFailures := new Number();
      totalDuration := new T.Timing();
      runDuration := new T.Timing();
    }

    /** The first seven counters. */
    method UpdateOutcome(now: nat, r: Fields<int>)
      requires Valid()
      modifies numRequests.buckets, errors.buckets, successes.buckets, failures.buckets, rejects.buckets,
               shortCircuits.buckets, timeouts.buckets
      ensures Contents() == BumpAll(old(Contents()), now, WithoutRest(r))
    {
      numRequests.IncrementAt(now, r.requests);
      errors.IncrementAt(now, r.errors);
      successes.IncrementAt(now, r.successes);
      failures.IncrementAt(now, r.failures);
      rejects.IncrementAt(now, r.rejects);
      shortCircuits.IncrementAt(now, r.shortCircuits);
      timeouts.IncrementAt(now, r.timeouts);
    }

    /** The other four. */
    method UpdateRest(now: nat, r: Fields<int>)
      requires Valid()
      modifies fallbackSuccesses.buckets, fallbackFailures.buckets, contextCanceled.buckets, contextDeadlineExceeded.buckets
      ensures Contents() == BumpAll(old(Contents()), now, WithoutOutcome(r))
    {
      fallbackSuccesses.IncrementAt(now, r.fallbackSuccesses);
      fallbackFailures.IncrementAt(now, r.fallbackFailures);
      contextCanceled.IncrementAt(now, r.contextCanceled);
      contextDeadlineExceeded.IncrementAt(now, r.contextDeadlineExceeded);
    }

    method Update(now: nat, r: Fields<int>, totalTaken: int, runTaken: int, timing: bool, clock: TimingClock)
      requires Valid()
      modifies Footprint(), totalDuration`buckets, runDuration`buckets
      ensures Contents() == BumpAll(old(Contents()), now, r)
      ensures totalDuration.Contents() == Timed(old(totalDuration.Contents()), timing, totalTaken, clock.total1, clock.total2)
      ensures runDuration.Contents() == Timed(old(runDuration.Contents()), timing, runTaken, clock.run1, clock.run2)
    {
      UpdateOutcome(now, r);
      UpdateRest(now, r);
      if timing {
        totalDuration.Add(totalTaken, clock.total1, clock.total2);
        runDuration.Add(runTaken, clock.run1, clock.run2);
      }
    }

    method Reset()
      requires Valid()
      modifies Footprint(), totalDuration, runDuration
      ensures Contents() == EMPTY_RINGS
      ensures totalDuration.Contents() == T.INITIAL == runDuration.Contents()
    {
      numRequests.Reset();
      errors.Reset();
      successes.Reset();
      rejects.Reset();
      shortCircuits.Reset();
      failures.Reset();
      timeouts.Reset();
      fallbackSuccesses.Reset();
      fallbackFailures.Reset();
      contextCanceled.Reset();
      contextDeadlineExceeded.Reset();
      totalDuration.Reset();
      runDuration.Reset();
    }
  }

  // ---------- whole runs ----------

  datatype Report = Report(epoch: nat, primary: Primary, secondary: Secondary)

  datatype Op = Update(report: Report) | Reset

  function RingsAfter(ops: seq<Op>): Rings {
    if ops == [] || ops[|ops| - 1].Reset? then EMPTY_RINGS
    else
      var report := ops[|ops| - 1].report;
      BumpAll(RingsAfter(ops[..|ops| - 1]), report.epoch, BuildResult(report.primary, report.secondary))
  }

  /** The reports since the last reset. */
  function History(ops: seq<Op>): seq<Report> {
    if ops == [] || ops[|ops| - 1].Reset? then []
    else History(ops[..|ops| - 1]) + [ops[|ops| - 1].report]
  }

  function NewestReport(history: seq<Report>): nat {
    if history == [] then 0
    else Max(NewestReport(history[..|history| - 1]), history[|history| - 1].epoch)
  }

  /** No report is more than ten seconds behind the newest since the last reset. */
  predicate TimelyReports(ops: seq<Op>) {
    ops == [] ||
    var init := ops[..|ops| - 1];
    && TimelyReports(init)
    && (ops[|ops| - 1].Update? ==> ops[|ops| - 1].report.epoch >= NewestReport(History(init)) - 10)
  }

  /** What the reports of the ten seconds up to `now` add to counter `c`. */
  function Tally(history: seq<Report>, c: Counter, now: int): int {
    if history == [] then 0
    else
      var last := history[|history| - 1];
      Tally(history[..|history| - 1], c, now)
      + if InWindow(last.epoch, now) then BuildResult(last.primary, last.secondary).Get(c) else 0
  }

  function EntryFor(report: Report, c: Counter): Entry {
    Entry(report.epoch, BuildResult(report.primary, report.secondary).Get(c))
  }

  function WriteFor(op: Op, c: Counter): RollingNumber.Op {
    if op.Reset? then RollingNumber.Reset
    else Write(EntryFor(op.report, c).epoch, EntryFor(op.report, c).amount)
  }

  /** The run as counter `c` alone sees it. */
  function WritesTo(ops: seq<Op>, c: Counter): seq<RollingNumber.Op> {
    if ops == [] then [] else WritesTo(ops[..|ops| - 1], c) + [WriteFor(ops[|ops| - 1], c)]
  }

  lemma BumpAllAt(rings: Rings, epoch: nat, r: Fields<int>, c: Counter)
    ensures BumpAll(rings, epoch, r).Get(c) == Bump(rings.Get(c), epoch, r.Get(c))
  {
  }

  lemma {:induction false} CounterIsARun(ops: seq<Op>, c: Counter)
    ensures RingsAfter(ops).Get(c) == SumRing(WritesTo(ops, c))
  {
    if ops != [] {
      var init, last := ops[..|ops| - 1], ops[|ops| - 1];
      CounterIsARun(init, c);
      var writes := WritesTo(ops, c);
      assert writes[..|writes| - 1] == WritesTo(init, c);
      if last.Update? {
        BumpAllAt(RingsAfter(init), last.report.epoch, BuildResult(last.report.primary, last.report.secondary), c);
      }
    }
  }

  lemma WritesToLast(ops: seq<Op>, c: Counter)
    requires ops != []
    ensures var writes := WritesTo(ops, c); writes != [] && writes[..|writes| - 1] == WritesTo(ops[..|ops| - 1], c)
  {
  }

  lemma AppendToBoth(log: seq<Entry>, history: seq<Report>, report: Report, c: Counter, now: int)
    requires Newest(log) == NewestReport(history) && WindowSum(log, now) == Tally(history, c, now)
    ensures Newest(log + [EntryFor(report, c)]) == NewestReport(history + [report])
    ensures WindowSum(log + [EntryFor(report, c)], now) == Tally(history + [report], c, now)
  {
  }

  lemma LogOfWrites(ops: seq<Op>, c: Counter)
    requires ops != []
    ensures var before := Log(WritesTo(ops[..|ops| - 1], c));
            Log(WritesTo(ops, c)) == if ops[|ops| - 1].Reset? then [] else before + [EntryFor(ops[|ops| - 1].report, c)]
  {
  }

  lemma {:induction false} LogTallies(ops: seq<Op>, c: Counter, now: int)
    ensures Newest(Log(WritesTo(ops, c))) == NewestReport(History(ops))
    ensures WindowSum(Log(WritesTo(ops, c)), now) == Tally(History(ops), c, now)
  {
    if ops != [] {
      var init, last := ops[..|ops| - 1], ops[|ops| - 1];
      LogTallies(init, c, now);
      LogOfWrites(ops, c);
      var log, history := Log(WritesTo(init, c)), History(init);
      if last.Update? {
        AppendToBoth(log, history, last.report, c, now);
      }
    }
  }

  lemma {:induction false} TimelyForEachCounter(ops: seq<Op>, c: Counter)
    requires TimelyReports(ops)
    ensures Timely(WritesTo(ops, c))
  {
    if ops != [] {
      TimelyForEachCounter(ops[..|ops| - 1], c);
      LogTallies(ops[..|ops| - 1], c, 0);
      WritesToLast(ops, c);
    }
  }

  /** Every counter reads as the tally of the reports of the last ten seconds, although a
      ring is only touched by reports that add to it. */
  lemma CounterReadsTally(ops: seq<Op>, c: Counter, now: int)
    requires TimelyReports(ops) && now >= NewestReport(History(ops))
    ensures VisibleSum(RingsAfter(ops).Get(c), now) == Tally(History(ops), c, now)
  {
    CounterIsARun(ops, c);
    LogTallies(ops, c, now);
    TimelyForEachCounter(ops, c);
    SumRefinesLog(WritesTo(ops, c), now);
  }

  /** Reports of the window with an event name the metrics do not know. */
  function UnrecognisedIn(history: seq<Report>, now: int): nat {
    if history == [] then 0
    else
      var last := history[|history| - 1];
      UnrecognisedIn(history[..|history| - 1], now)
      + if InWindow(last.epoch, now) && last.primary.Unrecognised? then 1 else 0
  }

  lemma {:induction false} RequestsConserved(history: seq<Report>, now: int)
    ensures Tally(history, Requests, now)
         == Tally(history, Successes, now) + Tally(history, Errors, now)
          + Tally(history, ContextsCanceled, now) + Tally(history, ContextsDeadlineExceeded, now)
          + UnrecognisedIn(history, now)
  {
    if history != [] {
      RequestsConserved(history[..|history| - 1], now);
    }
  }

  lemma {:induction false} ErrorsConserved(history: seq<Report>, now: int)
    ensures Tally(history, Errors, now)
         == Tally(history, Failures, now) + Tally(history, Rejects, now)
          + Tally(history, ShortCircuits, now) + Tally(history, Timeouts, now)
  {
    if history != [] {
      ErrorsConserved(history[..|history| - 1], now);
    }
  }

  lemma {:induction false} ErrorsAreRequests(history: seq<Report>, now: int)
    ensures 0 <= Tally(history, Errors, now) <= Tally(history, Requests, now)
  {
    if history != [] {
      ErrorsAreRequests(history[..|history| - 1], now);
    }
  }

  /** The reports counter `c` is there to count. */
  predicate Concerns(c: Counter, report: Report) {
    match c
    case Requests => true
    case Errors =>
      report.primary.Failure? || report.primary.Rejected? || report.primary.ShortCircuit? || report.primary.TimedOut?
    case Successes => report.primary.Success?
    case Failures => report.primary.Failure?
    case Rejects => report.primary.Rejected?
    case ShortCircuits => report.primary.ShortCircuit?
    case Timeouts => report.primary.TimedOut?
    case FallbackSuccesses => report.secondary.FallbackSuccess?
    case FallbackFailures => report.secondary.FallbackFailure?
    case ContextsCanceled => report.primary.ContextCanceled?
    case ContextsDeadlineExceeded => report.primary.ContextDeadlineExceeded?
  }

  function Concerned(history: seq<Report>, c: Counter, now: int): seq<Report> {
    if history == [] then []
    else
      var last := history[|history| - 1];
      Concerned(history[..|history| - 1], c, now)
      + if InWindow(last.epoch, now) && Concerns(c, last) then [last] else []
  }

  lemma ConcernedIsCountedOnce(c: Counter, report: Report)
    ensures BuildResult(report.primary, report.secondary).Get(c) == if Concerns(c, report) then 1 else 0
  {
  }

  lemma {:induction false} TallyCountsConcerned(history: seq<Report>, c: Counter, now: int)
    ensures Tally(history, c, now) == |Concerned(history, c, now)|
  {
    if history != [] {
      TallyCountsConcerned(history[..|history| - 1], c, now);
      ConcernedIsCountedOnce(c, history[|history| - 1]);
    }
  }

  lemma TallyAppend(reports: seq<Report>, report: Report, c: Counter, now: int)
    ensures Tally(reports + [report], c, now)
         == Tally(reports, c, now) + if InWindow(report.epoch, now) then BuildResult(report.primary, report.secondary).Get(c) else 0
  {
    assert (reports + [report])[..|reports|] == reports;
  }

  lemma SingleReport(report: Report, c: Counter, now: int)
    requires InWindow(report.epoch, now)
    ensures Tally([report], c, now) == if Concerns(c, report) then 1 else 0
  {
    TallyAppend([], report, c, now);
    ConcernedIsCountedOnce(c, report);
    assert [] + [report] == [report];
  }

  /** A counter reads as the number of reports of the last ten seconds that concern it. */
  lemma CounterCountsReports(ops: seq<Op>, c: Counter, now: int)
    requires TimelyReports(ops) && now >= NewestReport(History(ops))
    ensures Read(ops, c, now) == |Concerned(History(ops), c, now)|
  {
    CounterReadsTally(ops, c, now);
    TallyCountsConcerned(History(ops), c, now);
  }

  function Read(ops: seq<Op>, c: Counter, now: int): int { VisibleSum(RingsAfter(ops).Get(c), now) }

  /** Conservation, as a reader of the eleven rings sees it at any one moment: requests
      split into successes, errors and the two context endings exactly if no report of the
      window carried an unknown event name, and errors always split into their kinds. */
  lemma WindowedConservation(ops: seq<Op>, now: int)
    requires TimelyReports(ops) && now >= NewestReport(History(ops))
    ensures Read(ops, Requests, now)
         == Read(ops, Successes, now) + Read(ops, Errors, now)
          + Read(ops, ContextsCanceled, now) + Read(ops, ContextsDeadlineExceeded, now)
       <==> UnrecognisedIn(History(ops), now) == 0
    ensures Read(ops, Errors, now)
         == Read(ops, Failures, now) + Read(ops, Rejects, now) + Read(ops, ShortCircuits, now) + Read(ops, Timeouts, now)
  {
    forall c: Counter ensures Read(ops, c, now) == Tally(History(ops), c, now) {
      CounterReadsTally(ops, c, now);
    }
    RequestsConserved(History(ops), now);
    ErrorsConserved(History(ops), now);
  }

  lemma AloneInRun(report: Report)
    ensures var ops := [Update(report)];
            History(ops) == [report] && NewestReport([report]) == report.epoch && TimelyReports(ops)
  {
    var ops := [Update(report)];
    assert ops[..0] == [] && [report][..0] == [];
  }

  lemma ReadAlone(report: Report, c: Counter)
    ensures Read([Update(report)], c, report.epoch) == if Concerns(c, report) then 1 else 0
  {
    AloneInRun(report);
    CounterReadsTally([Update(report)], c, report.epoch);
    SingleReport(report, c, report.epoch);
  }

  /** A report with an unknown event name breaks the first balance: one request of no kind. */
  lemma UnknownEventUnbalances()
    ensures var ops := [Update(Report(100, Unrecognised, NoFallback))];
            && Read(ops, Requests, 100) == 1
            && Read(ops, Successes, 100) == Read(ops, Errors, 100) == 0
            && Read(ops, ContextsCanceled, 100) == Read(ops, ContextsDeadlineExceeded, 100) == 0
  {
    forall c: Counter ensures Read([Update(Report(100, Unrecognised, NoFallback))], c, 100) == if c.Requests? then 1 else 0 {
      ReadAlone(Report(100, Unrecognised, NoFallback), c);
    }
  }

  // ---------- the timings over whole runs ----------

  datatype Which = OfTotal | OfRun

  datatype Timings = Timings(total: T.State, run: T.State)
  {
    function Of(which: Which): T.State { if which.OfTotal? then total else run }
  }

  /** A report, with the clock readings that are taken if timing is enabled; a reset; a query
      of one of the two timings. */
  datatype TimedOp =
    | Reported(totalTaken: int, runTaken: int, timing: bool, clock: TimingClock)
    | Cleared(t: nat)
    | Asked(which: Which, t1: nat, t2: nat, t3: nat)

  /** One operation, with the contracts of the methods it calls. */
  ghost predicate NextTimings(s: Timings, op: TimedOp, s': Timings) {
    match op
    case Reported(totalTaken, runTaken, timing, clock) =>
      && s'.total == Timed(s.total, timing, totalTaken, clock.total1, clock.total2)
      && s'.run == Timed(s.run, timing, runTaken, clock.run1, clock.run2)
    case Cleared(_) => s' == Timings(T.INITIAL, T.INITIAL)
    case Asked(which, t1, t2, t3) =>
      var asked, other := s.Of(which), if which.OfTotal? then OfRun else OfTotal;
      && T.Next(asked, T.Query(t1, t2, t3), s'.Of(which))
      && s'.Of(other) == s.Of(other)
  }

  /** The operation reads the clock. */
  predicate Reads(op: TimedOp) { op.Reported? ==> op.timing }

  function FirstReading(op: TimedOp): nat {
    match op case Reported(_, _, _, clock) => clock.total1 case Cleared(t) => t case Asked(_, t1, _, _) => t1
  }

  function LastReading(op: TimedOp): nat {
    match op case Reported(_, _, _, clock) => clock.run2 case Cleared(t) => t case Asked(_, _, _, t3) => t3
  }

  predicate ReadingsInOrder(op: TimedOp) {
    match op
    case Reported(_, _, _, clock) => T.SECOND <= clock.total1 <= clock.total2 <= clock.run1 <= clock.run2
    case Cleared(t) => T.SECOND <= t
    case Asked(_, t1, t2, t3) => T.SECOND <= t1 <= t2 <= t3
  }

  ghost predicate TimedStep(trace: seq<Timings>, ops: seq<TimedOp>, k: nat)
    requires k < |ops| == |trace| - 1
  {
    NextTimings(trace[k], ops[k], trace[k + 1]) && (Reads(ops[k]) ==> ReadingsInOrder(ops[k]))
  }

  /** A run whose clock never goes back and starts a second or more after the epoch. */
  ghost predicate IsTimedRun(trace: seq<Timings>, ops: seq<TimedOp>) {
    && |trace| == |ops| + 1
    && trace[0] == Timings(T.INITIAL, T.INITIAL)
    && (forall k :: 0 <= k < |ops| ==> TimedStep(trace, ops, k))
    && (forall j, k :: 0 <= j < k < |ops| && Reads(ops[j]) && Reads(ops[k]) ==> LastReading(ops[j]) <= FirstReading(ops[k]))
  }

  /** The durations of the reports made while timing was enabled, among the first `n`
      operations and since the last reset, each with the second it was taken in. */
  function TakenBy(ops: seq<TimedOp>, n: nat, which: Which): seq<T.Sample>
    requires n <= |ops|
  {
    if n == 0 || ops[n - 1].Cleared? then []
    else if ops[n - 1].Reported? && ops[n - 1].timing then
      var op := ops[n - 1];
      TakenBy(ops, n - 1, which)
      + [if which.OfTotal? then T.Sample(T.Unix(op.clock.total1), op.totalTaken)
         else T.Sample(T.Unix(op.clock.run1), op.runTaken)]
    else TakenBy(ops, n - 1, which)
  }

  /** What one of the timings sees of an operation. */
  function Seen(op: TimedOp, which: Which): Option<T.Op> {
    match op
    case Reported(totalTaken, runTaken, timing, clock) =>
      if !timing then None
      else if which.OfTotal? then Some(T.Add(totalTaken, clock.total1, clock.total2))
      else Some(T.Add(runTaken, clock.run1, clock.run2))
    case Cleared(t) => Some(T.Reset(t))
    case Asked(asked, t1, t2, t3) => if asked == which then Some(T.Query(t1, t2, t3)) else None
  }

  lemma SeenIsDone(s: Timings, op: TimedOp, s': Timings, which: Which)
    requires NextTimings(s, op, s')
    ensures Seen(op, which).None? ==> s'.Of(which) == s.Of(which)
    ensures Seen(op, which).Some? ==> T.Next(s.Of(which), Seen(op, which).value, s'.Of(which))
  {
  }

  lemma SeenInOrder(op: TimedOp, which: Which)
    requires Reads(op) && ReadingsInOrder(op) && Seen(op, which).Some?
    ensures var seen := Seen(op, which).value;
            && T.SECOND <= T.First(seen) <= T.Last(seen) && (seen.Query? ==> seen.t1 <= seen.t2 <= seen.t3)
            && FirstReading(op) <= T.First(seen) && T.Last(seen) <= LastReading(op)
  {
  }

  lemma LogAppend(ops: seq<T.Op>, op: T.Op)
    ensures T.Log(ops + [op]) == if op.Add? then T.Log(ops) + [T.Sample(T.Unix(op.t1), op.duration)]
                                 else if op.Query? then T.Log(ops) else []
  {
    assert (ops + [op])[..|ops|] == ops;
  }

  /** `states` and `seen` are the run up to operation `n` as one of the timings sees it. */
  ghost predicate IsView(trace: seq<Timings>, ops: seq<TimedOp>, n: nat, which: Which, states: seq<T.State>, seen: seq<T.Op>)
    requires n <= |ops| == |trace| - 1
  {
    && T.IsRun(states, seen) && states[|seen|] == trace[n].Of(which) && T.Log(seen) == TakenBy(ops, n, which)
    && forall j, k :: 0 <= j < |seen| && n <= k < |ops| && Reads(ops[k]) ==> T.Last(seen[j]) <= FirstReading(ops[k])
  }

  lemma ViewStep(trace: seq<Timings>, ops: seq<TimedOp>, n: nat, which: Which, states: seq<T.State>, seen: seq<T.Op>)
      returns (states': seq<T.State>, seen': seq<T.Op>)
    requires IsTimedRun(trace, ops) && n < |ops| && IsView(trace, ops, n, which, states, seen)
    ensures IsView(trace, ops, n + 1, which, states', seen')
  {
    states', seen' := states, seen;
    assert TimedStep(trace, ops, n);
    SeenIsDone(trace[n], ops[n], trace[n + 1], which);
    if Seen(ops[n], which).Some? {
      var op, s := Seen(ops[n], which).value, trace[n + 1].Of(which);
      SeenInOrder(ops[n], which);
      T.ExtendRun(states, seen, op, s);
      LogAppend(seen, op);
      states', seen' := states + [s], seen + [op];
    }
  }

  lemma {:induction false} View(trace: seq<Timings>, ops: seq<TimedOp>, n: nat, which: Which)
      returns (states: seq<T.State>, seen: seq<T.Op>)
    requires IsTimedRun(trace, ops) && n <= |ops|
    ensures IsView(trace, ops, n, which, states, seen)
  {
    if n == 0 {
      states, seen := [T.INITIAL], [];
    } else {
      states, seen := View(trace, ops, n - 1, which);
      states, seen := ViewStep(trace, ops, n - 1, which, states, seen);
    }
  }

  /** A recomputed query of either timing is the sorted durations of exactly the reports of
      the last minute that were made while timing was enabled, since the last reset. */
  lemma TimingShowsReports(trace: seq<Timings>, ops: seq<TimedOp>, n: nat) returns (after: int)
    requires IsTimedRun(trace, ops) && n < |ops| && ops[n].Asked?
    requires ops[n].t1 >= trace[n].Of(ops[n].which).cachedAt + 1_000_000_000
    ensures T.MinuteBack(after, ops[n].t2)
    ensures var which, s := ops[n].which, trace[n + 1].Of(ops[n].which);
            s.cached == T.Sort(T.After(TakenBy(ops, n, which), after)) && s.cachedAt == ops[n].t3
  {
    var op, which := ops[n], ops[n].which;
    var states, seen := View(trace, ops, n, which);
    assert TimedStep(trace, ops, n);
    var s := trace[n + 1].Of(which);
    T.ExtendRun(states, seen, T.Query(op.t1, op.t2, op.t3), s);
    after := T.RecomputedShows(states + [s], seen + [T.Query(op.t1, op.t2, op.t3)], |seen|);
    assert (seen + [T.Query(op.t1, op.t2, op.t3)])[..|seen|] == seen;
  }
}
