/** The circuit breaker: an open/closed switch with a time stamp, over the metrics of one
    circuit.  Here each call is one atomic step; `Probes` has the interleavings.

    Clock readings are nanoseconds and come in as arguments, in the order the code takes
    them; settings are read anew by every call. */
module Breaker {
  import opened Common
  import opened RollingNumber
  import opened Metrics
  import opened Health
  import T = Timing
  import S = Settings

  datatype Circuit = Circuit(open: bool, stamp: int, rings: Rings)

  const INITIAL: Circuit := Circuit(false, 0, EMPTY_RINGS)

  // ---------- one call ----------

  /** The window has enough requests, and too many of them are errors. */
  predicate Trips(rings: Rings, now: nat, settings: S.Settings) {
    var requests, errors := VisibleSum(rings.requests, T.Unix(now)), VisibleSum(rings.errors, T.Unix(now));
    requests >= settings.requestVolumeThreshold && !IsHealthy(errors, requests, settings.errorPercentThreshold)
  }

  function AfterIsOpen(c: Circuit, settings: S.Settings, t1: nat, t2: nat): Circuit {
    if !c.open && Trips(c.rings, t1, settings) then c.(open := true, stamp := t2) else c
  }

  predicate WinsTest(c: Circuit, settings: S.Settings, t3: nat) { t3 > c.stamp + settings.sleepWindow }

  function AfterAllow(c: Circuit, settings: S.Settings, t1: nat, t2: nat, t3: nat): Circuit {
    var c1 := AfterIsOpen(c, settings, t1, t2);
    if c1.open && WinsTest(c1, settings, t3) then c1.(stamp := t3) else c1
  }

  predicate Allowed(c: Circuit, settings: S.Settings, t1: nat, t2: nat, t3: nat) {
    var c1 := AfterIsOpen(c, settings, t1, t2);
    !c1.open || WinsTest(c1, settings, t3)
  }

  function Closed(c: Circuit, primary: Primary): Circuit {
    if primary.Success? && c.open then c.(open := false, rings := EMPTY_RINGS) else c
  }

  function Recorded(c: Circuit, primary: Primary, secondary: Secondary, t: nat): Circuit {
    c.(rings := BumpAll(c.rings, T.Unix(t), BuildResult(primary, secondary)))
  }

  function AfterReport(c: Circuit, primary: Primary, secondary: Secondary, t: nat): Circuit {
    Recorded(Closed(c, primary), primary, secondary, t)
  }

  // ---------- the circuit in memory ----------

  class CircuitBreaker {
    const metrics: DefaultMetricCollector
    var open: bool
    var openedOrLastTestedTime: int

    ghost predicate Valid() { metrics.Valid() }

    ghost function Contents(): Circuit
      requires Valid()
      reads this, metrics.Footprint()
    {
      Circuit(open, openedOrLastTestedTime, metrics.Contents())
    }

    ghost function TotalTiming(): T.State
      reads metrics.totalDuration
    {
      metrics.totalDuration.Contents()
    }

    ghost function RunTiming(): T.State
      reads metrics.runDuration
    {
      metrics.runDuration.Contents()
    }

    constructor ()
      ensures Valid() && Contents() == INITIAL && TotalTiming() == T.INITIAL == RunTiming()
      ensures fresh(metrics.Footprint()) && fresh(metrics.totalDuration) && fresh(metrics.runDuration)
    {
      metrics := new DefaultMetricCollector();
      open := false;
      openedOrLastTestedTime := 0;
    }

    method SetOpen(now: nat)
      requires Valid()
      modifies this
      ensures Contents() == if old(open) then old(Contents()) else old(Contents()).(open := true, stamp := now)
    {
      if !open {
        open := true;
        openedOrLastTestedTime := now;
      }
    }

    method SetClose()
      requires Valid()
      modifies this`open, metrics.Footprint(), metrics.totalDuration, metrics.runDuration
      ensures Contents() == if old(open) then old(Contents()).(open := false, rings := EMPTY_RINGS) else old(Contents())
      ensures TotalTiming() == if old(open) then T.INITIAL else old(TotalTiming())
      ensures RunTiming() == if old(open) then T.INITIAL else old(RunTiming())
    {
      if open {
        open := false;
        metrics.Reset();
      }
    }

    method IsHealthyAt(now: nat, threshold: int) returns (healthy: bool)
      requires Valid()
      ensures healthy == IsHealthy(VisibleSum(Contents().rings.errors, T.Unix(now)),
                                   VisibleSum(Contents().rings.requests, T.Unix(now)), threshold)
    {
      var requests := metrics.numRequests.Sum(T.Unix(now));
      var errors := metrics.errors.Sum(T.Unix(now));
      healthy := ErrorPercent(errors, requests) < threshold;
    }

    method IsOpen(settings: S.Settings, t1: nat, t2: nat) returns (isOpen: bool)
      requires Valid()
      modifies this
      ensures Contents() == AfterIsOpen(old(Contents()), settings, t1, t2)
      ensures isOpen == Contents().open
    {
      if open {
        return true;
      }
      var requests := metrics.numRequests.Sum(T.Unix(t1));
      if requests < settings.requestVolumeThreshold {
        return false;
      }
      var healthy := IsHealthyAt(t1, settings.errorPercentThreshold);
      if !healthy {
        SetOpen(t2);
        return true;
      }
      return false;
    }

    method AllowSingleTest(settings: S.Settings, now: nat) returns (swapped: bool)
      requires Valid()
      modifies this`openedOrLastTestedTime
      ensures swapped == WinsTest(old(Contents()), settings, now)
      ensures Contents() == if swapped then old(Contents()).(stamp := now) else old(Contents())
    {
      var last := openedOrLastTestedTime;
      if now > last + settings.sleepWindow {
        openedOrLastTestedTime := now;
        return true;
      }
      return false;
    }

    method AllowRequest(settings: S.Settings, t1: nat, t2: nat, t3: nat) returns (allowed: bool)
      requires Valid()
      modifies this
      ensures allowed == Allowed(old(Contents()), settings, t1, t2, t3)
      ensures Contents() == AfterAllow(old(Contents()), settings, t1, t2, t3)
    {
      var isOpen := IsOpen(settings, t1, t2);
      if !isOpen {
        return true;
      }
      allowed := AllowSingleTest(settings, t3);
    }

    /** `None` is the empty event name, which is refused. */
    method ReportEvent(primary: Option<Primary>, secondary: Secondary, t: nat,
                       totalTaken: int, runTaken: int, timing: bool, clock: TimingClock) returns (ok: bool)
      requires Valid()
      modifies this, metrics.Footprint(), metrics.totalDuration, metrics.runDuration
      ensures ok == primary.Some?
      ensures Contents() == if ok then AfterReport(old(Contents()), primary.value, secondary, t) else old(Contents())
      ensures TotalTiming() == (
        var before := if primary == Some(Success) && old(open) then T.INITIAL else old(TotalTiming());
        Timed(before, ok && timing, totalTaken, clock.total1, clock.total2))
      ensures RunTiming() == (
        var before := if primary == Some(Success) && old(open) then T.INITIAL else old(RunTiming());
        Timed(before, ok && timing, runTaken, clock.run1, clock.run2))
    {
      if primary.None? {
        return false;
      }
      if primary.value.Success? && open {
        SetClose();
      }
      Record(primary.value, secondary, t, totalTaken, runTaken, timing, clock);
      return true;
    }

    method Record(primary: Primary, secondary: Secondary, t: nat,
                  totalTaken: int, runTaken: int, timing: bool, clock: TimingClock)
      requires Valid()
      modifies metrics.Footprint(), metrics.totalDuration, metrics.runDuration
      ensures Contents() == Recorded(old(Contents()), primary, secondary, t)
      ensures TotalTiming() == Timed(old(TotalTiming()), timing, totalTaken, clock.total1, clock.total2)
      ensures RunTiming() == Timed(old(RunTiming()), timing, runTaken, clock.run1, clock.run2)
    {
      metrics.Update(T.Unix(t), BuildResult(primary, secondary), totalTaken, runTaken, timing, clock);
    }
  }

  // ---------- whole runs ----------

  /** The calls that change the circuit: `AllowRequest`, a bare `IsOpen`, `ReportEvent`, and
      emptying the metrics. */
  datatype Op =
    | Allow(settings: S.Settings, t1: nat, t2: nat, t3: nat)
    | Check(settings: S.Settings, t1: nat, t2: nat)
    | Event(primary: Primary, secondary: Secondary, t: nat)
    | FlushMetrics(t: nat)

  /** The call asks whether the circuit is open, which may open it. */
  predicate Asks(op: Op) { op.Allow? || op.Check? }

  function First(op: Op): nat { if Asks(op) then op.t1 else op.t }
  function Last(op: Op): nat { match op case Allow(_, _, _, t3) => t3 case Check(_, _, t2) => t2 case _ => op.t }

  function StepCircuit(c: Circuit, op: Op): Circuit {
    match op
    case Allow(settings, t1, t2, t3) => AfterAllow(c, settings, t1, t2, t3)
    case Check(settings, t1, t2) => AfterIsOpen(c, settings, t1, t2)
    case Event(primary, secondary, t) => AfterReport(c, primary, secondary, t)
    case FlushMetrics(_) => c.(rings := EMPTY_RINGS)
  }

  /** A run so far: the circuit, the reports since it last closed or was flushed, how often
      it opened, how many reports and errors it took while closed, and how many of them its
      openings found in their windows. */
  datatype Run = Run(circuit: Circuit, reports: seq<Report>, openings: nat,
                     closedReports: nat, closedErrors: nat, foundReports: int, foundErrors: int)

  predicate Opens(c: Circuit, op: Op) { Asks(op) && !c.open && StepCircuit(c, op).open }

  function ReportOf(op: Op): Report
    requires op.Event?
  {
    Report(T.Unix(op.t), op.primary, op.secondary)
  }

  function IsError(report: Report): nat { BuildResult(report.primary, report.secondary).errors }

  function NextReports(reports: seq<Report>, open: bool, op: Op): seq<Report> {
    if Asks(op) then reports
    else if op.FlushMetrics? then []
    else if op.primary.Success? && open then [ReportOf(op)]
    else reports + [ReportOf(op)]
  }

  function Step(r: Run, op: Op): Run {
    var c := StepCircuit(r.circuit, op);
    var counted := op.Event? && !c.open;
    var opens := Opens(r.circuit, op);
    Run(c, NextReports(r.reports, r.circuit.open, op),
        r.openings + (if opens then 1 else 0),
        r.closedReports + (if counted then 1 else 0),
        r.closedErrors + (if counted then IsError(ReportOf(op)) else 0),
        r.foundReports + (if opens then Tally(r.reports, Requests, T.Unix(op.t1)) else 0),
        r.foundErrors + (if opens then Tally(r.reports, Errors, T.Unix(op.t1)) else 0))
  }

  function After(ops: seq<Op>): Run {
    if ops == [] then Run(INITIAL, [], 0, 0, 0, 0, 0) else Step(After(ops[..|ops| - 1]), ops[|ops| - 1])
  }

  /** The clock never goes back. */
  predicate InOrder(ops: seq<Op>) {
    ops == [] ||
    var init, last := ops[..|ops| - 1], ops[|ops| - 1];
    && InOrder(init)
    && (init != [] ==> Last(init[|init| - 1]) <= First(last))
    && (Asks(last) ==> last.t1 <= last.t2 <= Last(last))
  }

  // ---------- the rings hold the reports ----------

  /** `mops` is what the metrics have seen that now have these rings and reports, up to
      second `now`. */
  ghost predicate Follows(mops: seq<Metrics.Op>, rings: Rings, reports: seq<Report>, now: nat) {
    && RingsAfter(mops) == rings
    && History(mops) == reports
    && TimelyReports(mops)
    && NewestReport(reports) <= now
  }

  lemma AppendReset(mops: seq<Metrics.Op>)
    requires TimelyReports(mops)
    ensures RingsAfter(mops + [Metrics.Reset]) == EMPTY_RINGS && History(mops + [Metrics.Reset]) == []
    ensures TimelyReports(mops + [Metrics.Reset])
  {
  }

  lemma AppendUpdate(mops: seq<Metrics.Op>, report: Report)
    requires TimelyReports(mops) && NewestReport(History(mops)) <= report.epoch
    ensures var mops' := mops + [Update(report)];
            && RingsAfter(mops') == BumpAll(RingsAfter(mops), report.epoch, BuildResult(report.primary, report.secondary))
            && History(mops') == History(mops) + [report]
            && TimelyReports(mops')
            && NewestReport(History(mops')) == report.epoch
  {
  }

  lemma FollowsUpdate(mops: seq<Metrics.Op>, rings: Rings, reports: seq<Report>, report: Report, now: nat)
    requires Follows(mops, rings, reports, now) && now <= report.epoch
    ensures Follows(mops + [Update(report)], BumpAll(rings, report.epoch, BuildResult(report.primary, report.secondary)),
                    reports + [report], report.epoch)
  {
    AppendUpdate(mops, report);
  }

  lemma MetricsStep(mops: seq<Metrics.Op>, c: Circuit, reports: seq<Report>, op: Op, now: nat) returns (mops': seq<Metrics.Op>)
    requires Follows(mops, c.rings, reports, now) && now <= T.Unix(First(op)) <= T.Unix(Last(op))
    ensures Follows(mops', StepCircuit(c, op).rings, NextReports(reports, c.open, op), T.Unix(Last(op)))
  {
    mops' := mops;
    if Asks(op) {
      return;
    }
    var resets := op.FlushMetrics? || (op.primary.Success? && c.open);
    if resets {
      AppendReset(mops);
      mops' := mops + [Metrics.Reset];
    }
    if op.Event? {
      FollowsUpdate(mops', if resets then EMPTY_RINGS else c.rings, if resets then [] else reports, ReportOf(op), now);
      mops' := mops' + [Update(ReportOf(op))];
    }
  }

  lemma UnixMonotone(a: nat, b: nat)
    requires a <= b
    ensures T.Unix(a) <= T.Unix(b)
  {
  }

  lemma {:induction false} MetricsFollow(ops: seq<Op>, now: nat) returns (mops: seq<Metrics.Op>)
    requires InOrder(ops) && (ops != [] ==> Last(ops[|ops| - 1]) <= now)
    ensures Follows(mops, After(ops).circuit.rings, After(ops).reports, T.Unix(now))
  {
    if ops == [] {
      mops := [];
    } else {
      var last := ops[|ops| - 1];
      mops := MetricsFollow(ops[..|ops| - 1], First(last));
      UnixMonotone(First(last), Last(last));
      var before := After(ops[..|ops| - 1]);
      mops := MetricsStep(mops, before.circuit, before.reports, last, T.Unix(First(last)));
      UnixMonotone(Last(last), now);
    }
  }

  // ---------- the automaton ----------

  /** The reports of the window call for opening: the trip test in integers. */
  predicate Overloaded(reports: seq<Report>, now: int, settings: S.Settings) {
    var requests, errors := Tally(reports, Requests, now), Tally(reports, Errors, now);
    && requests >= settings.requestVolumeThreshold
    && if requests == 0 then settings.errorPercentThreshold <= 0
       else 200 * errors + requests >= 2 * requests * settings.errorPercentThreshold
  }

  lemma ReadsAnyCounter(ops: seq<Op>, now: nat, c: Counter)
    requires InOrder(ops) && (ops != [] ==> Last(ops[|ops| - 1]) <= now)
    ensures VisibleSum(After(ops).circuit.rings.Get(c), T.Unix(now)) == Tally(After(ops).reports, c, T.Unix(now))
  {
    var mops := MetricsFollow(ops, now);
    CounterReadsTally(mops, c, T.Unix(now));
  }

  /** What the breaker reads off the rings is what the reports say. */
  lemma ReadsTheReports(ops: seq<Op>, now: nat)
    requires InOrder(ops) && (ops != [] ==> Last(ops[|ops| - 1]) <= now)
    ensures var rings, reports, n := After(ops).circuit.rings, After(ops).reports, T.Unix(now);
            && VisibleSum(rings.requests, n) == Tally(reports, Requests, n) == |Concerned(reports, Requests, n)|
            && VisibleSum(rings.errors, n) == Tally(reports, Errors, n) == |Concerned(reports, Errors, n)|
            && Tally(reports, Errors, n) <= Tally(reports, Requests, n)
  {
    var n, reports := T.Unix(now), After(ops).reports;
    ReadsAnyCounter(ops, now, Requests);
    ReadsAnyCounter(ops, now, Errors);
    ErrorsAreRequests(reports, n);
    TallyCountsConcerned(reports, Requests, n);
    TallyCountsConcerned(reports, Errors, n);
  }

  lemma TripsIffOverloaded(ops: seq<Op>, now: nat, settings: S.Settings)
    requires InOrder(ops) && (ops != [] ==> Last(ops[|ops| - 1]) <= now)
    ensures Trips(After(ops).circuit.rings, now, settings) <==> Overloaded(After(ops).reports, T.Unix(now), settings)
  {
    ReadsTheReports(ops, now);
    var requests := Tally(After(ops).reports, Requests, T.Unix(now));
    var errors := Tally(After(ops).reports, Errors, T.Unix(now));
    if requests > 0 {
      UnhealthyIff(errors, requests, settings.errorPercentThreshold);
    } else {
      NoRequestsIsZeroPercent(errors);
    }
  }

  /** On every run the error percentage is a percentage, the nearest to the true share. */
  lemma PercentStaysInRange(ops: seq<Op>, now: nat)
    requires InOrder(ops) && (ops != [] ==> Last(ops[|ops| - 1]) <= now)
    ensures var rings, reports, n := After(ops).circuit.rings, After(ops).reports, T.Unix(now);
            var p := ErrorPercent(VisibleSum(rings.errors, n), VisibleSum(rings.requests, n));
            var requests, errors := |Concerned(reports, Requests, n)|, |Concerned(reports, Errors, n)|;
            && 0 <= p <= 100
            && (requests > 0 ==> Nearest(p, errors, requests))
  {
    ReadsTheReports(ops, now);
    var n, reports := T.Unix(now), After(ops).reports;
    var requests, errors := |Concerned(reports, Requests, n)|, |Concerned(reports, Errors, n)|;
    PercentInRange(errors, requests);
    if requests > 0 {
      PercentIsNearest(errors, requests);
    }
  }

  /** A closed circuit opens at exactly the calls to `AllowRequest` or `IsOpen` that find the
      window of reports since the last closing overloaded, and an open one closes at exactly
      the reports of success.  While it is, or has just become, open, a request is allowed
      exactly when more than a sleep window has passed since the opening or the last test. */
  lemma AutomatonStep(ops: seq<Op>, op: Op)
    requires InOrder(ops + [op])
    ensures var before, after := After(ops).circuit, After(ops + [op]).circuit;
            && (!before.open ==> (after.open <==>
                  Asks(op) && Overloaded(After(ops).reports, T.Unix(op.t1), op.settings)))
            && (before.open ==> (!after.open <==> op.Event? && op.primary.Success?))
            && (op.Allow? ==>
                  var since := if before.open then before.stamp else op.t2;
                  (Allowed(before, op.settings, op.t1, op.t2, op.t3) <==> !after.open || op.t3 > since + op.settings.sleepWindow))
  {
    assert (ops + [op])[..|ops|] == ops;
    if Asks(op) {
      TripsIffOverloaded(ops, op.t1, op.settings);
    }
  }

  /** When the circuit last opened, or last allowed a request while open. */
  function LastOpeningOrTest(ops: seq<Op>): int {
    if ops == [] then 0
    else
      var init, last := ops[..|ops| - 1], ops[|ops| - 1];
      var before, after := After(init).circuit, StepCircuit(After(init).circuit, last);
      if after.open && last.Allow? && Allowed(before, last.settings, last.t1, last.t2, last.t3) then last.t3
      else if after.open && Asks(last) && !before.open then last.t2
      else LastOpeningOrTest(init)
  }

  lemma {:induction false} StampIsLastOpeningOrTest(ops: seq<Op>)
    ensures After(ops).circuit.stamp == LastOpeningOrTest(ops)
  {
    if ops != [] {
      StampIsLastOpeningOrTest(ops[..|ops| - 1]);
    }
  }

  // ---------- how much it takes to open again ----------

  predicate FixedThresholds(ops: seq<Op>, volume: nat, percent: int) {
    forall op :: op in ops && Asks(op) ==> op.settings.requestVolumeThreshold == volume && op.settings.errorPercentThreshold == percent
  }

  /** The ten seconds up to `now` hold at least the volume of reports, and the share of errors
      among them without which the volume could not round to the threshold. */
  predicate Sufficient(reports: seq<Report>, now: int, settings: S.Settings) {
    && Tally(reports, Requests, now) >= settings.requestVolumeThreshold
    && 200 * Tally(reports, Errors, now) >= settings.requestVolumeThreshold * (2 * settings.errorPercentThreshold - 1)
  }

  /** An overloaded window holds at least the volume of reports, and enough errors. */
  lemma OverloadNeeds(reports: seq<Report>, now: int, settings: S.Settings)
    requires Overloaded(reports, now, settings) && settings.errorPercentThreshold >= 1
    ensures Sufficient(reports, now, settings)
  {
    var requests := Tally(reports, Requests, now);
    if requests > 0 {
      ShareOfErrors(Tally(reports, Errors, now), requests, settings.requestVolumeThreshold, settings.errorPercentThreshold);
    } else {
      NoReportsNoErrors(reports, now);
    }
  }

  lemma {:induction false} NoReportsNoErrors(reports: seq<Report>, now: int)
    ensures 0 <= Tally(reports, Errors, now) <= Tally(reports, Requests, now) <= |reports|
  {
    if reports != [] {
      NoReportsNoErrors(reports[..|reports| - 1], now);
    }
  }

  lemma ShareOfErrors(errors: int, requests: int, volume: int, percent: int)
    requires volume <= requests && percent >= 1 && 200 * errors + requests >= 2 * requests * percent
    ensures 200 * errors >= volume * (2 * percent - 1)
  {
  }

  lemma OpeningFinds(c: Circuit, reports: seq<Report>, op: Op)
    requires !c.open && StepCircuit(c, op).open && (Asks(op) ==> op.settings.errorPercentThreshold >= 1)
    requires Asks(op) && Trips(c.rings, op.t1, op.settings) ==> Overloaded(reports, T.Unix(op.t1), op.settings)
    ensures Asks(op) && Sufficient(reports, T.Unix(op.t1), op.settings)
  {
    OverloadNeeds(reports, T.Unix(op.t1), op.settings);
  }

  lemma ReadsAtCall(ops: seq<Op>, op: Op)
    requires InOrder(ops + [op]) && Asks(op)
    ensures Trips(After(ops).circuit.rings, op.t1, op.settings) <==> Overloaded(After(ops).reports, T.Unix(op.t1), op.settings)
  {
    assert (ops + [op])[..|ops|] == ops;
    TripsIffOverloaded(ops, op.t1, op.settings);
  }

  /** Whenever the circuit opens, the ten seconds before hold at least the volume of reports
      made since it last closed, with the threshold's share of errors among them. */
  lemma OpeningNeeds(ops: seq<Op>, op: Op)
    requires InOrder(ops + [op]) && !After(ops).circuit.open && StepCircuit(After(ops).circuit, op).open
    requires Asks(op) ==> op.settings.errorPercentThreshold >= 1
    ensures Asks(op) && Sufficient(After(ops).reports, T.Unix(op.t1), op.settings)
  {
    if Asks(op) {
      ReadsAtCall(ops, op);
    }
    OpeningFinds(After(ops).circuit, After(ops).reports, op);
  }

  // ---------- from one closing to the next opening ----------

  lemma AfterAppend(ops: seq<Op>, op: Op)
    ensures After(ops + [op]) == Step(After(ops), op)
  {
    assert (ops + [op])[..|ops|] == ops;
  }

  /** Right after a success closes the circuit, the rings hold just that success. */
  lemma ClosingLeavesOneSuccess(ops: seq<Op>, op: Op, now: nat, c: Counter)
    requires InOrder(ops + [op]) && op.Event? && op.primary.Success? && After(ops).circuit.open
    requires op.t <= now && InWindow(T.Unix(op.t), T.Unix(now))
    ensures !After(ops + [op]).circuit.open
    ensures VisibleSum(After(ops + [op]).circuit.rings.Get(c), T.Unix(now)) == if Concerns(c, ReportOf(op)) then 1 else 0
  {
    AfterAppend(ops, op);
    ReadsAnyCounter(ops + [op], now, c);
    SingleReport(ReportOf(op), c, T.Unix(now));
  }

  /** All reports among these calls. */
  function ReportsIn(ops: seq<Op>): seq<Report> {
    if ops == [] then []
    else
      var last := ops[|ops| - 1];
      ReportsIn(ops[..|ops| - 1]) + if last.Event? then [ReportOf(last)] else []
  }

  /** The success `ops[k]` closes the circuit, and it has stayed closed since. */
  ghost predicate ClosedSince(ops: seq<Op>, k: nat) {
    && k < |ops| && ops[k].Event? && ops[k].primary.Success? && !ClosedAfter(ops, k)
    && forall j :: k < j <= |ops| ==> ClosedAfter(ops, j)
  }

  predicate ClosedAfter(ops: seq<Op>, j: nat)
    requires j <= |ops|
  {
    !After(ops[..j]).circuit.open
  }

  lemma {:induction false} TallyNonnegative(reports: seq<Report>, c: Counter, now: int)
    ensures Tally(reports, c, now) >= 0
  {
    if reports != [] {
      TallyNonnegative(reports[..|reports| - 1], c, now);
    }
  }

  lemma ReportsInAppend(ops: seq<Op>, op: Op)
    ensures ReportsIn(ops + [op]) == ReportsIn(ops) + if op.Event? then [ReportOf(op)] else []
  {
    assert (ops + [op])[..|ops|] == ops;
  }

  /** `reports[j]` is what the breaker counts after `j` calls, and `open[j]` whether it is
      open then. */
  ghost predicate Evolves(reports: seq<seq<Report>>, open: seq<bool>, ops: seq<Op>) {
    && |reports| == |open| == |ops| + 1
    && forall j :: 0 <= j < |ops| ==> reports[j + 1] == NextReports(reports[j], open[j], ops[j])
  }

  lemma CountedStep(reports: seq<Report>, since: seq<Report>, op: Op, c: Counter, now: int)
    requires Tally(reports, c, now) <= Tally(since, c, now)
    ensures Tally(NextReports(reports, false, op), c, now) <= Tally(since + if op.Event? then [ReportOf(op)] else [], c, now)
  {
    if op.Event? {
      TallyAppend(reports, ReportOf(op), c, now);
      TallyAppend(since, ReportOf(op), c, now);
    } else {
      assert since + [] == since;
      TallyNonnegative(since, c, now);
    }
  }

  lemma ReportsInSlice(ops: seq<Op>, k: nat, n: nat)
    requires k <= n < |ops|
    ensures ReportsIn(ops[k..n + 1]) == ReportsIn(ops[k..n]) + if ops[n].Event? then [ReportOf(ops[n])] else []
  {
    assert ops[k..n + 1] == ops[k..n] + [ops[n]];
    ReportsInAppend(ops[k..n], ops[n]);
  }

  lemma CountedFirst(ops: seq<Op>, k: nat, reports: seq<Report>)
    requires k < |ops| && ops[k].Event? && ops[k].primary.Success?
    ensures NextReports(reports, true, ops[k]) == ReportsIn(ops[k..k + 1])
  {
    ReportsInSlice(ops, k, k);
    assert ReportsIn(ops[k..k]) == [] && [] + [ReportOf(ops[k])] == [ReportOf(ops[k])];
  }

  lemma {:induction false} CountedSinceClosing(
    reports: seq<seq<Report>>, open: seq<bool>, ops: seq<Op>, k: nat, n: nat, c: Counter, now: int)
    requires Evolves(reports, open, ops) && k < n <= |ops|
    requires ops[k].Event? && ops[k].primary.Success? && open[k] && forall j :: k < j <= n ==> !open[j]
    ensures Tally(reports[n], c, now) <= Tally(ReportsIn(ops[k..n]), c, now)
    decreases n
  {
    if n == k + 1 {
      CountedFirst(ops, k, reports[k]);
    } else {
      CountedSinceClosing(reports, open, ops, k, n - 1, c, now);
      ReportsInSlice(ops, k, n - 1);
      CountedStep(reports[n - 1], ReportsIn(ops[k..n - 1]), ops[n - 1], c, now);
    }
  }

  lemma NextReportsOfStep(ops: seq<Op>, j: nat)
    requires j < |ops|
    ensures After(ops[..j + 1]).reports == NextReports(After(ops[..j]).reports, !ClosedAfter(ops, j), ops[j])
  {
    assert ops[..j + 1][..j] == ops[..j];
  }

  lemma RunEvolves(ops: seq<Op>) returns (reports: seq<seq<Report>>, open: seq<bool>)
    ensures Evolves(reports, open, ops)
    ensures forall j :: 0 <= j <= |ops| ==> reports[j] == After(ops[..j]).reports && open[j] == !ClosedAfter(ops, j)
  {
    reports := seq(|ops| + 1, j requires 0 <= j <= |ops| => After(ops[..j]).reports);
    open := seq(|ops| + 1, j requires 0 <= j <= |ops| => !ClosedAfter(ops, j));
    forall j | 0 <= j < |ops| ensures reports[j + 1] == NextReports(reports[j], open[j], ops[j]) {
      NextReportsOfStep(ops, j);
    }
  }

  lemma ReportsSinceClosing(ops: seq<Op>, k: nat, c: Counter, now: int)
    requires ClosedSince(ops, k)
    ensures Tally(After(ops).reports, c, now) <= Tally(ReportsIn(ops[k..]), c, now)
  {
    var reports, open := RunEvolves(ops);
    CountedSinceClosing(reports, open, ops, k, |ops|, c, now);
    assert ops[..|ops|] == ops && ops[k..|ops|] == ops[k..];
  }

  /** The reopening bound: after a success closes the circuit, it cannot open again before
      the ten seconds up to some call hold, counting that success, at least the volume of
      reports made since, with the threshold's share of errors among them. */
  lemma ReopeningBound(ops: seq<Op>, k: nat, op: Op)
    requires InOrder(ops + [op]) && ClosedSince(ops, k) && StepCircuit(After(ops).circuit, op).open
    requires Asks(op) ==> op.settings.errorPercentThreshold >= 1
    ensures Asks(op) && Sufficient(ReportsIn(ops[k..]), T.Unix(op.t1), op.settings)
  {
    assert ClosedAfter(ops, |ops|) && ops[..|ops|] == ops;
    OpeningNeeds(ops, op);
    ReportsSinceClosing(ops, k, Requests, T.Unix(op.t1));
    ReportsSinceClosing(ops, k, Errors, T.Unix(op.t1));
  }

  // ---------- over many openings ----------

  function ErrorsIn(reports: seq<Report>): nat {
    if reports == [] then 0 else ErrorsIn(reports[..|reports| - 1]) + IsError(reports[|reports| - 1])
  }

  lemma ErrorsOfAppend(reports: seq<Report>, report: Report)
    ensures ErrorsIn(reports + [report]) == ErrorsIn(reports) + IsError(report)
    ensures ErrorsIn([report]) == IsError(report)
  {
    assert (reports + [report])[..|reports|] == reports && [report][..0] == [];
  }

  lemma {:induction false} TallyBounds(reports: seq<Report>, now: int)
    ensures Tally(reports, Requests, now) <= |reports|
    ensures 0 <= Tally(reports, Errors, now) <= ErrorsIn(reports)
  {
    if reports != [] {
      TallyBounds(reports[..|reports| - 1], now);
    }
  }

  /** What the openings found in their windows comes out of the reports of a closed circuit,
      of which those since the last closing are unspent. */
  predicate Spent(r: Run) {
    && r.closedReports >= r.foundReports + (if r.circuit.open then 0 else |r.reports|)
    && r.closedErrors >= r.foundErrors + (if r.circuit.open then 0 else ErrorsIn(r.reports))
  }

  lemma StepSpends(r: Run, op: Op)
    requires Spent(r)
    ensures Spent(Step(r, op))
  {
    if op.Event? {
      ErrorsOfAppend(r.reports, ReportOf(op));
    } else if Opens(r.circuit, op) {
      TallyBounds(r.reports, T.Unix(op.t1));
    }
  }

  lemma NextMultiple(k: nat, x: int)
    ensures (k + 1) * x == k * x + x
  {
  }

  predicate PaidFor(r: Run, volume: nat, share: nat) {
    && r.foundReports >= r.openings * volume
    && 200 * r.foundErrors >= r.openings * share
  }

  lemma StepPays(r: Run, op: Op, volume: nat, percent: int, share: nat)
    requires PaidFor(r, volume, share) && share == volume * (2 * percent - 1)
    requires Opens(r.circuit, op) ==>
               && Sufficient(r.reports, T.Unix(op.t1), op.settings)
               && op.settings.requestVolumeThreshold == volume && op.settings.errorPercentThreshold == percent
    ensures PaidFor(Step(r, op), volume, share)
  {
    if Opens(r.circuit, op) {
      NextMultiple(r.openings, volume);
      NextMultiple(r.openings, share);
    }
  }

  lemma PaysNext(ops: seq<Op>, op: Op, volume: nat, percent: int, share: nat)
    requires InOrder(ops + [op]) && percent >= 1 && share == volume * (2 * percent - 1)
    requires Asks(op) ==> op.settings.requestVolumeThreshold == volume && op.settings.errorPercentThreshold == percent
    requires PaidFor(After(ops), volume, share) && Spent(After(ops))
    ensures PaidFor(After(ops + [op]), volume, share) && Spent(After(ops + [op]))
  {
    AfterAppend(ops, op);
    if Opens(After(ops).circuit, op) {
      OpeningNeeds(ops, op);
    }
    StepPays(After(ops), op, volume, percent, share);
    StepSpends(After(ops), op);
  }

  lemma ThresholdsOfPrefix(ops: seq<Op>, volume: nat, percent: int)
    requires ops != [] && FixedThresholds(ops, volume, percent)
    ensures var init, last := ops[..|ops| - 1], ops[|ops| - 1];
            && ops == init + [last] && FixedThresholds(init, volume, percent)
            && (Asks(last) ==> last.settings.requestVolumeThreshold == volume && last.settings.errorPercentThreshold == percent)
  {
    assert ops[|ops| - 1] in ops;
  }

  lemma {:induction false} EveryOpeningPays(ops: seq<Op>, volume: nat, percent: int, share: nat)
    requires InOrder(ops) && FixedThresholds(ops, volume, percent) && percent >= 1
    requires share == volume * (2 * percent - 1)
    ensures PaidFor(After(ops), volume, share) && Spent(After(ops))
  {
    if ops == [] {
      NoneOpenYet(volume, share);
    } else {
      var init, last := ops[..|ops| - 1], ops[|ops| - 1];
      ThresholdsOfPrefix(ops, volume, percent);
      EveryOpeningPays(init, volume, percent, share);
      PaysNext(init, last, volume, percent, share);
    }
  }

  lemma NoneOpenYet(volume: nat, share: nat)
    ensures PaidFor(After([]), volume, share) && Spent(After([]))
  {
  }

  /** Every opening is paid for anew.  Over any run with fixed thresholds, `k` openings found
      at least `k` times the volume in reports in their windows, and the threshold's share of
      errors among them, and all of these are different reports made while the circuit was
      closed; nothing is counted towards two openings. */
  lemma OpeningsArePaidFor(ops: seq<Op>, volume: nat, percent: int, share: nat)
    requires InOrder(ops) && FixedThresholds(ops, volume, percent) && percent >= 1
    requires share == volume * (2 * percent - 1)
    ensures var r := After(ops);
            && r.closedReports >= r.foundReports >= r.openings * volume
            && 200 * r.closedErrors >= 200 * r.foundErrors >= r.openings * share
  {
    EveryOpeningPays(ops, volume, percent, share);
  }
}
