/** Letting single requests through an open circuit, under concurrency.

    Any number of goroutines test (`allowSingleTest`), open (`setOpen`) and close
    (`setClose`) one circuit.  Each reading of the clock, load, store and compare-and-swap
    is a step of its own, and a run is any interleaving.  The sleep window is fixed. */
module Probes {

  /** Where a goroutine is.  A tester reads the clock, then loads the stamp, and only if
      the window has passed tries to swap; an opener sets the flag, then reads the clock,
      then stores the stamp; `flag` is when it set the flag. */
  datatype Thread =
    | Test
    | TestTimed(now: int)
    | TestLoaded(now: int, seen: int)
    | Opening
    | Flagged(flag: int)
    | OpenTimed(flag: int, now: int)
    | Closing
    | Returned

  /** What happened to the two variables, in order, with the time stored or, for the flag,
      the time on the clock. */
  datatype Event = Flag(time: int) | Store(time: int) | Won(time: int) | Close(time: int)

  /** `lost` holds the stamps that an opener replaced by an earlier one. */
  datatype State = State(
    clock: int, open: bool, stamp: int, threads: seq<Thread>, events: seq<Event>, lost: seq<int>)

  datatype Step = Tick(clock: int) | Spawn(thread: Thread) | Advance(id: nat)

  const INITIAL: State := State(0, false, 0, [], [], [])

  predicate Enabled(s: State, step: Step) {
    match step
    case Tick(clock) => clock >= s.clock
    case Spawn(thread) => thread.Test? || thread.Opening? || thread.Closing?
    case Advance(id) => id < |s.threads|
  }

  function Move(s: State, id: nat, thread: Thread): State
    requires id < |s.threads|
  {
    s.(threads := s.threads[id := thread])
  }

  function Next(s: State, step: Step, window: int): State
    requires Enabled(s, step)
  {
    match step
    case Tick(clock) => s.(clock := clock)
    case Spawn(thread) => s.(threads := s.threads + [thread])
    case Advance(id) =>
      match s.threads[id]
      case Test => Move(s, id, TestTimed(s.clock))
      case TestTimed(now) =>
        if now > s.stamp + window then Move(s, id, TestLoaded(now, s.stamp)) else Move(s, id, Returned)
      case TestLoaded(now, seen) =>
        if s.stamp == seen then Move(s, id, Returned).(stamp := now, events := s.events + [Won(now)])
        else Move(s, id, Returned)
      case Opening =>
        if !s.open then Move(s, id, Flagged(s.clock)).(open := true, events := s.events + [Flag(s.clock)])
        else Move(s, id, Returned)
      case Flagged(flag) => Move(s, id, OpenTimed(flag, s.clock))
      case OpenTimed(_, now) =>
        Move(s, id, Returned)
          .(stamp := now, events := s.events + [Store(now)], lost := if now < s.stamp then s.lost + [s.stamp] else s.lost)
      case Closing =>
        if s.open then Move(s, id, Returned).(open := false, events := s.events + [Close(s.clock)])
        else Move(s, id, Returned)
      case Returned => s
  }

  predicate StepAt(trace: seq<State>, steps: seq<Step>, window: int, k: nat)
    requires k < |steps| == |trace| - 1
  {
    Enabled(trace[k], steps[k]) && trace[k + 1] == Next(trace[k], steps[k], window)
  }

  ghost predicate IsRun(trace: seq<State>, steps: seq<Step>, window: int) {
    && |trace| == |steps| + 1
    && trace[0] == INITIAL
    && forall k :: 0 <= k < |steps| ==> StepAt(trace, steps, window, k)
  }

  // ---------- at any interleaving ----------

  /** The stamp these events leave behind. */
  function StampAfter(events: seq<Event>): int {
    if events == [] then 0
    else
      var last := events[|events| - 1];
      if last.Won? || last.Store? then last.time else StampAfter(events[..|events| - 1])
  }

  /** Each test won came more than a window after the stamp it replaced. */
  predicate Chained(events: seq<Event>, window: int) {
    forall j :: 0 <= j < |events| && events[j].Won? ==> events[j].time > StampAfter(events[..j]) + window
  }

  /** What a goroutine has read lies in the past, and a tester only goes on past the window. */
  predicate ThreadOk(t: Thread, clock: int, window: int) {
    match t
    case TestTimed(now) => now <= clock
    case TestLoaded(now, seen) => seen + window < now <= clock
    case Flagged(flag) => flag <= clock
    case OpenTimed(flag, now) => flag <= now <= clock
    case _ => true
  }

  ghost predicate Inv(s: State, window: int) {
    && 0 <= s.clock && s.stamp <= s.clock
    && s.stamp == StampAfter(s.events)
    && Chained(s.events, window)
    && forall k :: 0 <= k < |s.threads| ==> ThreadOk(s.threads[k], s.clock, window)
  }

  lemma ChainedAppend(events: seq<Event>, e: Event, window: int)
    requires Chained(events, window) && (e.Won? ==> e.time > StampAfter(events) + window)
    ensures Chained(events + [e], window)
    ensures StampAfter(events + [e]) == if e.Won? || e.Store? then e.time else StampAfter(events)
  {
    var events' := events + [e];
    assert events'[..|events|] == events;
    forall j | 0 <= j < |events'| && events'[j].Won? ensures events'[j].time > StampAfter(events'[..j]) + window {
      if j < |events| {
        assert events'[..j] == events[..j];
      }
    }
  }

  /** The two variables and the events after one action of a goroutine. */
  lemma AdvanceKeepsChain(s: State, id: nat, window: int)
    requires Inv(s, window) && id < |s.threads|
    ensures var s' := Next(s, Advance(id), window);
            && s'.stamp == StampAfter(s'.events) && s'.stamp <= s.clock == s'.clock
            && Chained(s'.events, window)
  {
    var t, s' := s.threads[id], Next(s, Advance(id), window);
    assert ThreadOk(t, s.clock, window);
    if |s'.events| > |s.events| {
      ChainedAppend(s.events, s'.events[|s.events|], window);
    }
  }

  lemma AdvanceKeepsThreads(s: State, id: nat, window: int)
    requires Inv(s, window) && id < |s.threads|
    ensures var s' := Next(s, Advance(id), window);
            forall k :: 0 <= k < |s'.threads| ==> ThreadOk(s'.threads[k], s'.clock, window)
  {
    assert ThreadOk(s.threads[id], s.clock, window);
  }

  lemma NextKeepsInv(s: State, step: Step, window: int)
    requires Inv(s, window) && Enabled(s, step)
    ensures Inv(Next(s, step, window), window)
  {
    match step
    case Advance(id) =>
      AdvanceKeepsChain(s, id, window);
      AdvanceKeepsThreads(s, id, window);
    case Tick(_) =>
      assert forall k :: 0 <= k < |s.threads| ==> ThreadOk(s.threads[k], s.clock, window);
    case Spawn(_) =>
  }

  lemma {:induction false} RunInv(trace: seq<State>, steps: seq<Step>, window: int, n: nat)
    requires IsRun(trace, steps, window) && n <= |steps|
    ensures Inv(trace[n], window)
  {
    if n > 0 {
      RunInv(trace, steps, window, n - 1);
      assert StepAt(trace, steps, window, n - 1);
      NextKeepsInv(trace[n - 1], steps[n - 1], window);
    }
  }

  function WinsIn(events: seq<Event>): nat {
    if events == [] then 0 else WinsIn(events[..|events| - 1]) + if events[|events| - 1].Won? then 1 else 0
  }

  lemma CountNext(events: seq<Event>, i: nat, j: nat)
    requires i < j < |events|
    ensures WinsIn(events[i + 1..j + 1]) == WinsIn(events[i + 1..j]) + if events[j].Won? then 1 else 0
  {
    var between := events[i + 1..j + 1];
    assert between[..|between| - 1] == events[i + 1..j] && between[|between| - 1] == events[j];
  }

  lemma {:induction false} ChainSpan(events: seq<Event>, i: nat, j: nat, window: nat)
    requires Chained(events, window) && i <= j < |events| && events[i].Won?
    requires forall k :: i < k <= j ==> !events[k].Store?
    ensures StampAfter(events[..j + 1]) >= events[i].time + WinsIn(events[i + 1..j + 1]) * (window + 1)
  {
    assert events[..j + 1][..j] == events[..j];
    if j > i {
      ChainSpan(events, i, j - 1, window);
      CountNext(events, i, j);
      OneMore(WinsIn(events[i + 1..j]), window + 1);
    } else {
      assert events[i + 1..j + 1] == [];
    }
  }

  lemma OneMore(k: nat, x: int)
    ensures (k + 1) * x == k * x + x
  {
  }

  /** Spacing at any interleaving: as long as no opening stores its time in between, each
      further test won lies more than a window later, so that `k` more of them take more
      than `k` windows; in particular no stamp is replaced by two tests. */
  lemma WinsAreSpaced(trace: seq<State>, steps: seq<Step>, window: nat, i: nat, j: nat)
    requires IsRun(trace, steps, window)
    requires var events := trace[|steps|].events;
             i < j < |events| && events[i].Won? && events[j].Won? && forall k :: i < k <= j ==> !events[k].Store?
    ensures var events := trace[|steps|].events;
            && events[j].time - events[i].time >= WinsIn(events[i + 1..j + 1]) * (window + 1)
            && WinsIn(events[i + 1..j + 1]) >= 1
            && StampAfter(events[..i]) < StampAfter(events[..j])
  {
    RunInv(trace, steps, window, |steps|);
    var events := trace[|steps|].events;
    ChainSpan(events, i, j, window);
    StampAfterWin(events, j);
    StampBeforeWin(events, i, j, window);
    CountNext(events, i, j);
  }

  lemma StampAfterWin(events: seq<Event>, j: nat)
    requires j < |events| && events[j].Won?
    ensures StampAfter(events[..j + 1]) == events[j].time
  {
    assert events[..j + 1][..j] == events[..j];
  }

  lemma StampBeforeWin(events: seq<Event>, i: nat, j: nat, window: nat)
    requires Chained(events, window) && i < j < |events| && events[i].Won? && forall k :: i < k <= j ==> !events[k].Store?
    ensures StampAfter(events[..i]) < StampAfter(events[..j])
  {
    ChainSpan(events, i, j - 1, window);
    Nonnegative(WinsIn(events[i + 1..j]), window + 1);
  }

  lemma Nonnegative(k: nat, x: nat)
    ensures k * x >= 0
  {
  }

  // ---------- what one goroutine does, whoever else is at work ----------

  /** Goroutine `id` makes its next two moves at `k` and `l`. */
  predicate MovesAt(steps: seq<Step>, id: nat, k: nat, l: nat) {
    && k < l < |steps| && steps[k] == Advance(id) == steps[l]
    && forall j :: k < j < l ==> steps[j] != Advance(id)
  }

  lemma {:induction false} StaysPut(trace: seq<State>, steps: seq<Step>, window: int, id: nat, k: nat, l: nat)
    requires IsRun(trace, steps, window) && k <= l <= |steps| && id < |trace[k].threads|
    requires forall j :: k <= j < l ==> steps[j] != Advance(id)
    ensures id < |trace[l].threads| && trace[l].threads[id] == trace[k].threads[id]
    decreases l
  {
    if k < l {
      StaysPut(trace, steps, window, id, k, l - 1);
      assert StepAt(trace, steps, window, l - 1);
    }
  }

  /** A test that reads the clock at `i`, loads the stamp at `k` and swaps at `l`, while the
      stamp stays as it loaded it, is won if and only if the clock had passed the window. */
  lemma UndisturbedTestIsWonIff(trace: seq<State>, steps: seq<Step>, window: int, id: nat, i: nat, k: nat, l: nat)
    requires IsRun(trace, steps, window) && MovesAt(steps, id, i, k) && MovesAt(steps, id, k, l)
    requires id < |trace[i].threads| && trace[i].threads[id].Test? && trace[l].stamp == trace[k].stamp
    ensures var now := trace[i].clock;
            if now > trace[k].stamp + window
            then trace[l + 1].events == trace[l].events + [Won(now)] && trace[l + 1].stamp == now
            else trace[l + 1].events == trace[l].events && trace[l + 1].stamp == trace[l].stamp
  {
    assert StepAt(trace, steps, window, i) && StepAt(trace, steps, window, k) && StepAt(trace, steps, window, l);
    StaysPut(trace, steps, window, id, i + 1, k);
    StaysPut(trace, steps, window, id, k + 1, l);
  }

  /** An opening that finds the circuit closed at `i` opens it, and stores at `l` what the
      clock read at `k`. */
  lemma OpeningStoresItsReading(trace: seq<State>, steps: seq<Step>, window: int, id: nat, i: nat, k: nat, l: nat)
    requires IsRun(trace, steps, window) && MovesAt(steps, id, i, k) && MovesAt(steps, id, k, l)
    requires id < |trace[i].threads| && trace[i].threads[id].Opening? && !trace[i].open
    ensures trace[i + 1].open && trace[i + 1].events == trace[i].events + [Flag(trace[i].clock)]
    ensures trace[l + 1].stamp == trace[k].clock && trace[l + 1].events == trace[l].events + [Store(trace[k].clock)]
  {
    assert StepAt(trace, steps, window, i) && StepAt(trace, steps, window, k) && StepAt(trace, steps, window, l);
    StaysPut(trace, steps, window, id, i + 1, k);
    StaysPut(trace, steps, window, id, k + 1, l);
  }

  // ---------- from a quiet moment on ----------

  predicate Pending(t: Thread) { t.Flagged? || t.OpenTimed? }

  /** No opener is between its flag and its stamp. */
  predicate Quiet(s: State) { forall k :: 0 <= k < |s.threads| ==> !Pending(s.threads[k]) }

  predicate Wins(s: State, step: Step) {
    step.Advance? && step.id < |s.threads| && s.threads[step.id].TestLoaded? && s.stamp == s.threads[step.id].seen
  }

  /** Some opener that set its flag at `time` or later has not stored its stamp. */
  predicate Unstamped(s: State, time: int) {
    exists k :: 0 <= k < |s.threads| && Pending(s.threads[k]) && time <= s.threads[k].flag
  }

  /** A stamp of `time` or later has been turned back, not counting the first `lost` ones. */
  predicate TurnedBack(s: State, lost: nat, time: int) {
    exists k :: lost <= k < |s.lost| && time <= s.lost[k]
  }

  /** A test is won by a clock reading not a window past the flag of an opener that has yet
      to store its stamp, or past a stamp that a slow opener turned back. */
  predicate Early(s: State, step: Step, lost: nat, window: int) {
    Wins(s, step) && var time := s.threads[step.id].now - window; Unstamped(s, time) || TurnedBack(s, lost, time)
  }

  /** From event `base` on, every test won came more than a window after every opening and
      test before it. */
  predicate Spaced(events: seq<Event>, base: nat, window: int) {
    forall i, j :: base <= i < j < |events| && events[j].Won? && !events[i].Close? ==>
      events[j].time > events[i].time + window
  }

  predicate Recorded(events: seq<Event>, base: nat, time: int) {
    exists i :: base <= i < |events| && !events[i].Close? && events[i].time == time
  }

  predicate Covered(s: State, lost: nat, time: int) {
    time <= s.stamp || Unstamped(s, time) || TurnedBack(s, lost, time)
  }

  /** What the time since the quiet moment `s0` has left: no opening or test is later than
      the stamp, an unstamped flag and all stamps turned back, and these are all on record. */
  ghost predicate Since(s0: State, s: State) {
    && |s0.events| <= |s.events| && |s0.lost| <= |s.lost| && s0.clock <= s.clock && s0.stamp <= s0.clock
    && (forall i :: |s0.events| <= i < |s.events| && !s.events[i].Close? ==> Covered(s, |s0.lost|, s.events[i].time))
    && (s.stamp == s0.stamp || Recorded(s.events, |s0.events|, s.stamp))
    && (forall k :: |s0.lost| <= k < |s.lost| ==> Recorded(s.events, |s0.events|, s.lost[k]))
    && (forall k :: 0 <= k < |s.threads| && Pending(s.threads[k]) ==>
          Recorded(s.events, |s0.events|, s.threads[k].flag) && (s.threads[k].OpenTimed? ==> s.threads[k].now >= s0.clock))
  }

  lemma RecordedAppend(events: seq<Event>, base: nat, e: Event, time: int)
    requires base <= |events| && Recorded(events, base, time)
    ensures Recorded(events + [e], base, time)
  {
    var i :| base <= i < |events| && !events[i].Close? && events[i].time == time;
    assert (events + [e])[i] == events[i];
  }

  lemma RecordedLast(events: seq<Event>, base: nat, e: Event)
    requires base <= |events| && !e.Close?
    ensures Recorded(events + [e], base, e.time)
  {
    assert (events + [e])[|events|] == e;
  }

  lemma RecordKept(s: State, id: nat, window: int, base: nat, time: int)
    requires id < |s.threads| && base <= |s.events| && Recorded(s.events, base, time)
    ensures Recorded(Next(s, Advance(id), window).events, base, time)
  {
    var s' := Next(s, Advance(id), window);
    if |s'.events| > |s.events| {
      RecordedAppend(s.events, base, s'.events[|s.events|], time);
    }
  }

  /** What covered a time before an action covers it after: an opener passes the cover of
      its flag, and of a stamp it turns back, on. */
  lemma CoverKept(s: State, id: nat, window: nat, lost: nat, time: int)
    requires Inv(s, window) && id < |s.threads| && lost <= |s.lost| && Covered(s, lost, time)
    ensures Covered(Next(s, Advance(id), window), lost, time)
  {
    var t, s' := s.threads[id], Next(s, Advance(id), window);
    assert ThreadOk(t, s.clock, window);
    if Unstamped(s, time) {
      var k :| 0 <= k < |s.threads| && Pending(s.threads[k]) && time <= s.threads[k].flag;
      assert k != id || t.Flagged? ==> Pending(s'.threads[k]) && s'.threads[k].flag == s.threads[k].flag;
    } else if TurnedBack(s, lost, time) {
      var k :| lost <= k < |s.lost| && time <= s.lost[k];
      assert s'.lost[k] == s.lost[k];
    } else if t.OpenTimed? && t.now < s.stamp {
      assert s'.lost[|s.lost|] == s.stamp;
    }
  }

  lemma EventsCovered(s0: State, s: State, id: nat, window: nat)
    requires Inv(s, window) && Since(s0, s) && id < |s.threads|
    ensures var s' := Next(s, Advance(id), window);
            forall i :: |s0.events| <= i < |s'.events| && !s'.events[i].Close? ==> Covered(s', |s0.lost|, s'.events[i].time)
  {
    var t, s' := s.threads[id], Next(s, Advance(id), window);
    forall i | |s0.events| <= i < |s'.events| && !s'.events[i].Close?
      ensures Covered(s', |s0.lost|, s'.events[i].time)
    {
      if i < |s.events| {
        assert s'.events[i] == s.events[i];
        CoverKept(s, id, window, |s0.lost|, s.events[i].time);
      } else if t.Opening? {
        assert Pending(s'.threads[id]) && s'.threads[id].flag == s.clock;
      }
    }
  }

  lemma StampRecorded(s0: State, s: State, id: nat, window: nat)
    requires Inv(s, window) && Since(s0, s) && id < |s.threads|
    ensures var s' := Next(s, Advance(id), window);
            && (s'.stamp == s0.stamp || Recorded(s'.events, |s0.events|, s'.stamp))
            && (forall k :: |s0.lost| <= k < |s'.lost| ==> Recorded(s'.events, |s0.events|, s'.lost[k]))
  {
    var s' := Next(s, Advance(id), window);
    if s'.stamp != s.stamp {
      RecordedLast(s.events, |s0.events|, s'.events[|s.events|]);
    } else if s.stamp != s0.stamp {
      RecordKept(s, id, window, |s0.events|, s.stamp);
    }
    forall k | |s0.lost| <= k < |s'.lost| ensures Recorded(s'.events, |s0.events|, s'.lost[k]) {
      assert Recorded(s.events, |s0.events|, s'.lost[k]);
      RecordKept(s, id, window, |s0.events|, s'.lost[k]);
    }
  }

  lemma FlagsRecorded(s0: State, s: State, id: nat, window: nat)
    requires Inv(s, window) && Since(s0, s) && id < |s.threads|
    ensures var s' := Next(s, Advance(id), window);
            forall k :: 0 <= k < |s'.threads| && Pending(s'.threads[k]) ==>
              && Recorded(s'.events, |s0.events|, s'.threads[k].flag)
              && (s'.threads[k].OpenTimed? ==> s'.threads[k].now >= s0.clock)
  {
    var s' := Next(s, Advance(id), window);
    forall k | 0 <= k < |s'.threads| && Pending(s'.threads[k])
      ensures Recorded(s'.events, |s0.events|, s'.threads[k].flag)
    {
      if s.threads[k].Opening? && k == id {
        RecordedLast(s.events, |s0.events|, Flag(s.clock));
      } else {
        RecordKept(s, id, window, |s0.events|, s.threads[k].flag);
      }
    }
  }

  lemma SinceKept(s0: State, s: State, step: Step, window: nat)
    requires Inv(s, window) && Since(s0, s) && Enabled(s, step)
    ensures Since(s0, Next(s, step, window))
  {
    var s' := Next(s, step, window);
    if step.Advance? {
      EventsCovered(s0, s, step.id, window);
      StampRecorded(s0, s, step.id, window);
      FlagsRecorded(s0, s, step.id, window);
    } else {
      forall i | |s0.events| <= i < |s'.events| && !s'.events[i].Close?
        ensures Covered(s', |s0.lost|, s'.events[i].time)
      {
        SpawnKeepsCover(s, s', |s0.lost|, s.events[i].time);
      }
    }
  }

  lemma SpawnKeepsCover(s: State, s': State, lost: nat, time: int)
    requires s.threads <= s'.threads && s.stamp == s'.stamp && s.lost == s'.lost && Covered(s, lost, time)
    ensures Covered(s', lost, time)
  {
    if Unstamped(s, time) {
      var k :| 0 <= k < |s.threads| && Pending(s.threads[k]) && time <= s.threads[k].flag;
      assert s'.threads[k] == s.threads[k];
    }
  }

  /** A win keeps the spacing exactly if it is not early. */
  lemma WinSpacedIff(s0: State, s: State, step: Step, window: nat)
    requires Inv(s, window) && Since(s0, s) && Wins(s, step)
    ensures Early(s, step, |s0.lost|, window)
       <==> exists i :: |s0.events| <= i < |s.events| && !s.events[i].Close? && s.threads[step.id].now <= s.events[i].time + window
  {
    var t := s.threads[step.id];
    var time := t.now - window;
    assert ThreadOk(t, s.clock, window);
    if Unstamped(s, time) {
      var k :| 0 <= k < |s.threads| && Pending(s.threads[k]) && time <= s.threads[k].flag;
      assert Recorded(s.events, |s0.events|, s.threads[k].flag);
    } else if TurnedBack(s, |s0.lost|, time) {
      var k :| |s0.lost| <= k < |s.lost| && time <= s.lost[k];
      assert Recorded(s.events, |s0.events|, s.lost[k]);
    } else {
      forall i | |s0.events| <= i < |s.events| && !s.events[i].Close? ensures s.events[i].time < time {
        assert Covered(s, |s0.lost|, s.events[i].time);
      }
    }
  }

  lemma StepSpacedIff(s0: State, s: State, step: Step, window: nat)
    requires Inv(s, window) && Since(s0, s) && Enabled(s, step)
    ensures Spaced(Next(s, step, window).events, |s0.events|, window)
       <==> Spaced(s.events, |s0.events|, window) && !Early(s, step, |s0.lost|, window)
  {
    var s', base := Next(s, step, window), |s0.events|;
    if |s'.events| > |s.events| {
      assert s'.events[..|s.events|] == s.events;
      SpacedAppend(s.events, s'.events[|s.events|], base, window);
    }
    if Wins(s, step) {
      WinSpacedIff(s0, s, step, window);
    }
  }

  lemma SpacedAppend(events: seq<Event>, e: Event, base: nat, window: int)
    ensures Spaced(events + [e], base, window)
       <==> && Spaced(events, base, window)
            && (e.Won? ==> forall i :: base <= i < |events| && !events[i].Close? ==> e.time > events[i].time + window)
  {
    var events' := events + [e];
    assert forall i :: 0 <= i < |events| ==> events'[i] == events[i];
    if Spaced(events', base, window) {
      forall i, j | base <= i < j < |events| && events[j].Won? && !events[i].Close?
        ensures events[j].time > events[i].time + window
      {
        assert events'[j] == events[j] && events'[i] == events[i];
      }
      forall i | e.Won? && base <= i < |events| && !events[i].Close? ensures e.time > events[i].time + window {
        assert events'[|events|] == e && events'[i] == events[i];
      }
    }
  }

  /** The exact condition, for every run and from any quiet moment of it: openings and tests
      are spaced by more than a window if and only if no test is won early. */
  lemma {:induction false} SpacedIffNoneEarly(trace: seq<State>, steps: seq<Step>, window: nat, m: nat, n: nat)
    requires IsRun(trace, steps, window) && m <= n <= |steps| && Quiet(trace[m])
    ensures Since(trace[m], trace[n])
    ensures Spaced(trace[n].events, |trace[m].events|, window)
       <==> forall k :: m <= k < n ==> !Early(trace[k], steps[k], |trace[m].lost|, window)
    decreases n
  {
    RunInv(trace, steps, window, m);
    if n > m {
      SpacedIffNoneEarly(trace, steps, window, m, n - 1);
      RunInv(trace, steps, window, n - 1);
      assert StepAt(trace, steps, window, n - 1);
      SinceKept(trace[m], trace[n - 1], steps[n - 1], window);
      StepSpacedIff(trace[m], trace[n - 1], steps[n - 1], window);
    }
  }

  lemma {:induction false} SpacedSpan(events: seq<Event>, base: nat, i: nat, j: nat, window: nat)
    requires Spaced(events, base, window) && base <= i < j < |events| && !events[i].Close? && events[j].Won?
    ensures events[j].time - events[i].time >= WinsIn(events[i + 1..j + 1]) * (window + 1)
    decreases j
  {
    CountNext(events, i, j);
    OneMore(WinsIn(events[i + 1..j]), window + 1);
    LastWin(events, base, i, j, window);
  }

  /** The wins strictly between `i` and `j`, by way of the last of them. */
  lemma {:induction false} LastWin(events: seq<Event>, base: nat, i: nat, j: nat, window: nat)
    requires Spaced(events, base, window) && base <= i < j < |events| && !events[i].Close? && events[j].Won?
    ensures events[j].time - events[i].time >= WinsIn(events[i + 1..j]) * (window + 1) + window + 1
    decreases j, 0
  {
    var k := LastWinBefore(events, i, j);
    if k > i {
      SpacedSpan(events, base, i, k, window);
    }
  }

  /** The position of the last win in `i + 1 .. j`, or `i` if there is none. */
  lemma {:induction false} LastWinBefore(events: seq<Event>, i: nat, j: nat) returns (k: nat)
    requires i < j <= |events|
    ensures i <= k < j && (k > i ==> events[k].Won?)
    ensures WinsIn(events[i + 1..j]) == if k == i then 0 else WinsIn(events[i + 1..k + 1])
  {
    if j == i + 1 {
      k := i;
      assert events[i + 1..j] == [];
    } else if events[j - 1].Won? {
      k := j - 1;
    } else {
      k := LastWinBefore(events, i, j - 1);
      assert events[i + 1..j][..j - i - 2] == events[i + 1..j - 1];
    }
  }

  /** Spacing over whole runs, openings and closings included: from a quiet moment on, as
      long as no test is won early, every test is won more than a window after every opening
      and test before it, so `k` tests won since one of them take more than `k` windows. */
  lemma TestsAreRationed(trace: seq<State>, steps: seq<Step>, window: nat, m: nat, n: nat, i: nat, j: nat)
    requires IsRun(trace, steps, window) && m <= n <= |steps| && Quiet(trace[m])
    requires forall k :: m <= k < n ==> !Early(trace[k], steps[k], |trace[m].lost|, window)
    requires var events := trace[n].events; |trace[m].events| <= i < j < |events| && !events[i].Close? && events[j].Won?
    ensures var events := trace[n].events;
            && events[j].time > events[i].time + window
            && events[j].time - events[i].time >= WinsIn(events[i + 1..j + 1]) * (window + 1)
  {
    SpacedIffNoneEarly(trace, steps, window, m, n);
    SpacedSpan(trace[n].events, |trace[m].events|, i, j, window);
  }

  // ---------- when no opening is interrupted ----------

  /** The step lets another goroutine open the circuit, or win a test, while some opener
      is between its flag and its stamp. */
  predicate Interrupts(s: State, step: Step) {
    !Quiet(s) && (Wins(s, step) || (step.Advance? && step.id < |s.threads| && s.threads[step.id].Opening? && !s.open))
  }

  ghost predicate CalmInv(s: State, lost: nat) {
    && |s.lost| == lost
    && (forall i, j :: 0 <= i < j < |s.threads| ==> !(Pending(s.threads[i]) && Pending(s.threads[j])))
    && (forall k :: 0 <= k < |s.threads| && s.threads[k].OpenTimed? ==> s.stamp <= s.threads[k].now)
  }

  lemma CalmNext(s: State, step: Step, lost: nat, window: nat)
    requires Inv(s, window) && CalmInv(s, lost) && Enabled(s, step) && !Interrupts(s, step)
    ensures CalmInv(Next(s, step, window), lost)
  {
    if step.Advance? {
      assert ThreadOk(s.threads[step.id], s.clock, window);
    }
  }

  lemma {:induction false} CalmRun(trace: seq<State>, steps: seq<Step>, window: nat, m: nat, n: nat)
    requires IsRun(trace, steps, window) && m <= n <= |steps| && Quiet(trace[m])
    requires forall k :: m <= k < n ==> !Interrupts(trace[k], steps[k])
    ensures CalmInv(trace[n], |trace[m].lost|)
    decreases n
  {
    if n > m {
      CalmRun(trace, steps, window, m, n - 1);
      RunInv(trace, steps, window, n - 1);
      assert StepAt(trace, steps, window, n - 1);
      CalmNext(trace[n - 1], steps[n - 1], |trace[m].lost|, window);
    }
  }

  /** Openings that act as one step make no test early, so the spacing holds. */
  lemma UninterruptedIsNeverEarly(trace: seq<State>, steps: seq<Step>, window: nat, m: nat, n: nat)
    requires IsRun(trace, steps, window) && m <= n <= |steps| && Quiet(trace[m])
    requires forall k :: m <= k < n ==> !Interrupts(trace[k], steps[k])
    ensures forall k :: m <= k < n ==> !Early(trace[k], steps[k], |trace[m].lost|, window)
    ensures Spaced(trace[n].events, |trace[m].events|, window)
  {
    forall k | m <= k < n ensures !Early(trace[k], steps[k], |trace[m].lost|, window) {
      CalmRun(trace, steps, window, m, k);
    }
    SpacedIffNoneEarly(trace, steps, window, m, n);
  }

  /** The first interruption decides: after a calm stretch a test breaks the spacing if and
      only if its clock reading is not a window past the flag of an unstamped opener. */
  lemma InterruptionBreaksSpacingIff(trace: seq<State>, steps: seq<Step>, window: nat, m: nat, n: nat)
    requires IsRun(trace, steps, window) && m <= n < |steps| && Quiet(trace[m])
    requires (forall k :: m <= k < n ==> !Interrupts(trace[k], steps[k])) && Wins(trace[n], steps[n])
    ensures Spaced(trace[n + 1].events, |trace[m].events|, window)
       <==> !Unstamped(trace[n], trace[n].threads[steps[n].id].now - window)
  {
    RunInv(trace, steps, window, n);
    CalmRun(trace, steps, window, m, n);
    UninterruptedIsNeverEarly(trace, steps, window, m, n);
    SpacedIffNoneEarly(trace, steps, window, m, n);
    assert StepAt(trace, steps, window, n);
    StepSpacedIff(trace[m], trace[n], steps[n], window);
  }

  // ---------- and when it is ----------

  lemma Extend(trace: seq<State>, steps: seq<Step>, step: Step, s: State) returns (trace': seq<State>, steps': seq<Step>)
    requires IsRun(trace, steps, 5_000)
    requires Enabled(trace[|steps|], step) && s == Next(trace[|steps|], step, 5_000)
    ensures IsRun(trace', steps', 5_000) && |steps'| == |steps| + 1
    ensures trace'[|steps|] == trace[|steps|] && trace'[|steps'|] == s
  {
    trace', steps' := trace + [s], steps + [step];
    forall k | 0 <= k < |steps'| ensures StepAt(trace', steps', 5_000, k) {
      assert k < |steps| ==> StepAt(trace, steps, 5_000, k);
    }
  }

  /** The two steps of an opening do not act as one: a test that comes between flag and
      stamp still sees the old stamp and wins at the very moment of opening. */
  lemma InterruptedOpeningLetsTestThrough() returns (trace: seq<State>, steps: seq<Step>)
    ensures IsRun(trace, steps, 5_000)
    ensures trace[|steps|].open && trace[|steps|].events == [Flag(9_000), Won(9_000)]
  {
    trace, steps := [INITIAL], [];
    trace, steps := Extend(trace, steps, Tick(9_000), State(9_000, false, 0, [], [], []));
    trace, steps := Extend(trace, steps, Spawn(Opening), State(9_000, false, 0, [Opening], [], []));
    var flagged, flag := Flagged(9_000), [Flag(9_000)];
    trace, steps := Extend(trace, steps, Advance(0), State(9_000, true, 0, [flagged], flag, []));
    trace, steps := Extend(trace, steps, Spawn(Test), State(9_000, true, 0, [flagged, Test], flag, []));
    trace, steps := Extend(trace, steps, Advance(1), State(9_000, true, 0, [flagged, TestTimed(9_000)], flag, []));
    trace, steps := Extend(trace, steps, Advance(1), State(9_000, true, 0, [flagged, TestLoaded(9_000, 0)], flag, []));
    trace, steps := Extend(trace, steps, Advance(1), State(9_000, true, 9_000, [flagged, Returned], flag + [Won(9_000)], []));
  }

  /** An opener has read the clock, but not stored it when another call closes the circuit. */
  lemma OpenerLags() returns (trace: seq<State>, steps: seq<Step>)
    ensures IsRun(trace, steps, 5_000)
    ensures trace[|steps|] == State(9_000, true, 0, [OpenTimed(1_000, 1_000), Closing], [Flag(1_000)], [])
  {
    trace, steps := [INITIAL], [];
    trace, steps := Extend(trace, steps, Tick(1_000), State(1_000, false, 0, [], [], []));
    trace, steps := Extend(trace, steps, Spawn(Opening), State(1_000, false, 0, [Opening], [], []));
    var events := [Flag(1_000)];
    trace, steps := Extend(trace, steps, Advance(0), State(1_000, true, 0, [Flagged(1_000)], events, []));
    var slow := OpenTimed(1_000, 1_000);
    trace, steps := Extend(trace, steps, Advance(0), State(1_000, true, 0, [slow], events, []));
    trace, steps := Extend(trace, steps, Tick(9_000), State(9_000, true, 0, [slow], events, []));
    trace, steps := Extend(trace, steps, Spawn(Closing), State(9_000, true, 0, [slow, Closing], events, []));
  }

  /** A second opening overtakes the first. */
  lemma SlowOpener() returns (trace: seq<State>, steps: seq<Step>, events: seq<Event>)
    ensures IsRun(trace, steps, 5_000)
    ensures events == [Flag(1_000), Close(9_000), Flag(9_000), Store(9_000)]
    ensures trace[|steps|] == State(9_000, true, 9_000, [OpenTimed(1_000, 1_000), Returned, Returned], events, [])
  {
    trace, steps := OpenerLags();
    var slow := OpenTimed(1_000, 1_000);
    events := [Flag(1_000), Close(9_000)];
    trace, steps := Extend(trace, steps, Advance(1), State(9_000, false, 0, [slow, Returned], events, []));
    trace, steps := Extend(trace, steps, Spawn(Opening), State(9_000, false, 0, [slow, Returned, Opening], events, []));
    events := events + [Flag(9_000)];
    trace, steps := Extend(trace, steps, Advance(2), State(9_000, true, 0, [slow, Returned, Flagged(9_000)], events, []));
    trace, steps := Extend(trace, steps, Advance(2), State(9_000, true, 0, [slow, Returned, OpenTimed(9_000, 9_000)], events, []));
    events := events + [Store(9_000)];
    trace, steps := Extend(trace, steps, Advance(2), State(9_000, true, 9_000, [slow, Returned, Returned], events, []));
  }

  /** Nor need anyone be in between: an opener that was slow to store its stamp turns back
      the stamp of a later opening, and a test is won the next moment. */
  lemma SlowOpenerTurnsStampBack() returns (trace: seq<State>, steps: seq<Step>)
    ensures IsRun(trace, steps, 5_000) && |steps| > 0 && Quiet(trace[|steps| - 1])
    ensures trace[|steps|].events == [Flag(1_000), Close(9_000), Flag(9_000), Store(9_000), Store(1_000), Won(9_001)]
  {
    var events;
    trace, steps, events := SlowOpener();
    var done := [Returned, Returned, Returned];
    events := events + [Store(1_000)];
    trace, steps := Extend(trace, steps, Advance(0), State(9_000, true, 1_000, done, events, [9_000]));
    trace, steps := Extend(trace, steps, Tick(9_001), State(9_001, true, 1_000, done, events, [9_000]));
    trace, steps := Extend(trace, steps, Spawn(Test), State(9_001, true, 1_000, done + [Test], events, [9_000]));
    trace, steps := Extend(trace, steps, Advance(3), State(9_001, true, 1_000, done + [TestTimed(9_001)], events, [9_000]));
    trace, steps := Extend(trace, steps, Advance(3), State(9_001, true, 1_000, done + [TestLoaded(9_001, 1_000)], events, [9_000]));
    events := events + [Won(9_001)];
    trace, steps := Extend(trace, steps, Advance(3), State(9_001, true, 9_001, done + [Returned], events, [9_000]));
  }
}
