/** Tickets going back to one pool from any number of goroutines, while others reset its
    statistics.

    A return reads the clock, counts itself, reads the active count, records it, and only
    then sends its ticket back; a reset empties the maximum first and then the counter.
    Each of these is a step of its own, and a run is any interleaving.  One update of a ring
    is one step here: `LockFreeNumber` shows that none is lost. */
module Returns {
  import opened RollingNumber
  import opened Pool

  datatype Thread =
    | Holding
    | Counting(now: nat)
    | Sampling(now: nat)
    | Recording(now: nat, active: int)
    | Sending(now: nat)
    | Gone(now: nat)
    | Clearing
    | ClearingRest
    | Cleared

  datatype Count = Count(id: nat, epoch: nat)

  /** `counts` and `samples` are what the two rings have been given since each was reset. */
  datatype World = World(max: nat, tickets: nat, counts: seq<Count>, samples: seq<Entry>, threads: seq<Thread>)

  datatype Step = TakeTicket | StartClear | Advance(id: nat, clock: nat)

  function Start(max: nat): World { World(max, max, [], [], []) }

  predicate Enabled(s: World, step: Step) {
    match step
    case TakeTicket => s.tickets > 0
    case StartClear => true
    case Advance(id, _) => id < |s.threads| && (s.threads[id].Sending? ==> s.tickets < s.max)
  }

  function Move(s: World, id: nat, t: Thread): World
    requires id < |s.threads|
  {
    s.(threads := s.threads[id := t])
  }

  function Next(s: World, step: Step): World
    requires Enabled(s, step)
  {
    match step
    case TakeTicket => s.(tickets := s.tickets - 1, threads := s.threads + [Holding])
    case StartClear => s.(threads := s.threads + [Clearing])
    case Advance(id, clock) =>
      match s.threads[id]
      case Holding => Move(s, id, Counting(clock))
      case Counting(now) => Move(s, id, Sampling(now)).(counts := s.counts + [Count(id, now)])
      case Sampling(now) => Move(s, id, Recording(now, s.max - s.tickets))
      case Recording(now, active) => Move(s, id, Sending(now)).(samples := s.samples + [Entry(now, active)])
      case Sending(now) => Move(s, id, Gone(now)).(tickets := s.tickets + 1)
      case Clearing => Move(s, id, ClearingRest).(samples := [])
      case ClearingRest => Move(s, id, Cleared).(counts := [])
      case _ => s
  }

  // ---------- the invariant ----------

  predicate Holds(t: Thread) { t.Holding? || t.Counting? || t.Sampling? || t.Recording? || t.Sending? }

  /** In the middle of returning its ticket, past the count. */
  predicate Halfway(t: Thread) { t.Sampling? || t.Recording? }

  predicate HasCounted(t: Thread, epoch: nat) { (Halfway(t) || t.Sending? || t.Gone?) && t.now == epoch }

  function Holders(threads: seq<Thread>): nat {
    if threads == [] then 0 else Holders(threads[..|threads| - 1]) + if Holds(threads[|threads| - 1]) then 1 else 0
  }

  predicate SampledAt(samples: seq<Entry>, epoch: nat) { exists i :: 0 <= i < |samples| && samples[i].epoch == epoch }

  predicate InReset(s: World) { exists k :: 0 <= k < |s.threads| && s.threads[k].ClearingRest? }

  /** Every count is of another goroutine, and of the second that goroutine read. */
  predicate CountsOk(s: World) {
    && (forall i :: 0 <= i < |s.counts| ==> s.counts[i].id < |s.threads| && HasCounted(s.threads[s.counts[i].id], s.counts[i].epoch))
    && (forall i, j :: 0 <= i < j < |s.counts| ==> s.counts[i].id != s.counts[j].id)
  }

  predicate SamplesOk(s: World) {
    && (forall i :: 0 <= i < |s.samples| ==> 1 <= s.samples[i].amount <= s.max)
    && (forall k :: 0 <= k < |s.threads| && s.threads[k].Recording? ==> 1 <= s.threads[k].active <= s.max)
  }

  /** Except halfway through a reset, every count has its sample or will still take it. */
  predicate CountsSampled(s: World)
    requires CountsOk(s)
  {
    InReset(s) || forall i :: 0 <= i < |s.counts| ==> Halfway(s.threads[s.counts[i].id]) || SampledAt(s.samples, s.counts[i].epoch)
  }

  ghost predicate Inv(s: World) {
    && s.tickets + Holders(s.threads) == s.max
    && CountsOk(s) && SamplesOk(s) && CountsSampled(s)
  }

  lemma {:induction false} HoldersAfterUpdate(threads: seq<Thread>, id: nat, t: Thread)
    requires id < |threads|
    ensures Holders(threads[id := t]) + (if Holds(threads[id]) then 1 else 0) == Holders(threads) + (if Holds(t) then 1 else 0)
    ensures Holds(threads[id]) ==> Holders(threads) >= 1
  {
    var init := threads[..|threads| - 1];
    if id < |init| {
      HoldersAfterUpdate(init, id, t);
      assert threads[id := t][..|threads| - 1] == init[id := t];
    } else {
      assert threads[id := t][..|threads| - 1] == init;
    }
  }

  lemma HoldersAppend(threads: seq<Thread>, t: Thread)
    ensures Holders(threads + [t]) == Holders(threads) + if Holds(t) then 1 else 0
  {
    assert (threads + [t])[..|threads|] == threads;
  }

  /** A goroutine lets go of its ticket exactly when it sends it back. */
  lemma SendingReleases(s: World, id: nat, clock: nat)
    requires Enabled(s, Advance(id, clock))
    ensures var s' := Next(s, Advance(id, clock));
            && s'.max == s.max && |s'.threads| == |s.threads| && s'.threads == s.threads[id := s'.threads[id]]
            && s'.tickets == s.tickets + (if Holds(s.threads[id]) then 1 else 0) - (if Holds(s'.threads[id]) then 1 else 0)
  {
  }

  lemma TicketsKept(s: World, step: Step)
    requires s.tickets + Holders(s.threads) == s.max && Enabled(s, step)
    ensures Next(s, step).tickets + Holders(Next(s, step).threads) == s.max == Next(s, step).max
  {
    match step
    case Advance(id, clock) =>
      SendingReleases(s, id, clock);
      HoldersAfterUpdate(s.threads, id, Next(s, step).threads[id]);
    case TakeTicket => HoldersAppend(s.threads, Holding);
    case StartClear => HoldersAppend(s.threads, Clearing);
  }

  lemma StaysCountedAs(s: World, step: Step, id: nat, epoch: nat)
    requires Enabled(s, step) && id < |s.threads| && HasCounted(s.threads[id], epoch)
    ensures id < |Next(s, step).threads| && HasCounted(Next(s, step).threads[id], epoch)
  {
  }

  lemma CountsKept(s: World, step: Step)
    requires CountsOk(s) && Enabled(s, step)
    ensures CountsOk(Next(s, step))
  {
    var s' := Next(s, step);
    forall i | 0 <= i < |s'.counts|
      ensures s'.counts[i].id < |s'.threads| && HasCounted(s'.threads[s'.counts[i].id], s'.counts[i].epoch)
    {
      if i < |s.counts| {
        StaysCountedAs(s, step, s.counts[i].id, s.counts[i].epoch);
      }
    }
  }

  lemma SamplesKept(s: World, step: Step)
    requires s.tickets + Holders(s.threads) == s.max && SamplesOk(s) && Enabled(s, step)
    ensures SamplesOk(Next(s, step))
  {
    if step.Advance? {
      HoldersAfterUpdate(s.threads, step.id, Cleared);
    }
  }

  lemma SampledAtKept(samples: seq<Entry>, e: Entry, epoch: nat)
    requires SampledAt(samples, epoch) || e.epoch == epoch
    ensures SampledAt(samples + [e], epoch)
  {
    if SampledAt(samples, epoch) {
      var i :| 0 <= i < |samples| && samples[i].epoch == epoch;
      assert (samples + [e])[i].epoch == epoch;
    } else {
      assert (samples + [e])[|samples|].epoch == epoch;
    }
  }

  lemma ResetGoesOn(s: World, step: Step)
    requires Enabled(s, step) && (InReset(s) || (step.Advance? && s.threads[step.id].Clearing?))
    ensures InReset(Next(s, step)) || Next(s, step).counts == []
  {
    var s' := Next(s, step);
    if step.Advance? && s.threads[step.id].Clearing? {
      assert s'.threads[step.id].ClearingRest?;
    } else {
      var k :| 0 <= k < |s.threads| && s.threads[k].ClearingRest?;
      assert !(step.Advance? && step.id == k) ==> s'.threads[k].ClearingRest?;
    }
  }

  lemma CountsStaySampled(s: World, step: Step)
    requires CountsOk(s) && CountsSampled(s) && Enabled(s, step)
    ensures CountsOk(Next(s, step)) && CountsSampled(Next(s, step))
  {
    CountsKept(s, step);
    var s' := Next(s, step);
    if InReset(s) || (step.Advance? && s.threads[step.id].Clearing?) {
      ResetGoesOn(s, step);
    } else {
      forall i | 0 <= i < |s'.counts|
        ensures Halfway(s'.threads[s'.counts[i].id]) || SampledAt(s'.samples, s'.counts[i].epoch)
      {
        if |s'.samples| > |s.samples| {
          var e := s'.samples[|s.samples|];
          assert s'.samples == s.samples + [e];
          if SampledAt(s.samples, s'.counts[i].epoch) || s'.counts[i].epoch == e.epoch {
            SampledAtKept(s.samples, e, s'.counts[i].epoch);
          }
        }
      }
    }
  }

  lemma NextKeepsInv(s: World, step: Step)
    requires Inv(s) && Enabled(s, step)
    ensures Inv(Next(s, step))
  {
    TicketsKept(s, step);
    SamplesKept(s, step);
    CountsStaySampled(s, step);
  }

  predicate StepAt(trace: seq<World>, steps: seq<Step>, k: nat)
    requires k < |steps| == |trace| - 1
  {
    Enabled(trace[k], steps[k]) && trace[k + 1] == Next(trace[k], steps[k])
  }

  ghost predicate IsRun(trace: seq<World>, steps: seq<Step>, max: nat) {
    && |trace| == |steps| + 1
    && trace[0] == Start(max)
    && forall k :: 0 <= k < |steps| ==> StepAt(trace, steps, k)
  }

  lemma {:induction false} RunInv(trace: seq<World>, steps: seq<Step>, max: nat, n: nat)
    requires IsRun(trace, steps, max) && n <= |steps|
    ensures Inv(trace[n]) && trace[n].max == max
  {
    if n > 0 {
      RunInv(trace, steps, max, n - 1);
      assert StepAt(trace, steps, n - 1);
      NextKeepsInv(trace[n - 1], steps[n - 1]);
      TicketsKept(trace[n - 1], steps[n - 1]);
    }
  }

  // ---------- what the statistics say ----------

  function CountLog(counts: seq<Count>): seq<Entry> {
    if counts == [] then [] else CountLog(counts[..|counts| - 1]) + [Entry(counts[|counts| - 1].epoch, 1)]
  }

  function CountsIn(counts: seq<Count>, now: int): nat {
    if counts == [] then 0
    else CountsIn(counts[..|counts| - 1], now) + if InWindow(counts[|counts| - 1].epoch, now) then 1 else 0
  }

  lemma {:induction false} CountLogReturns(counts: seq<Count>, now: int)
    ensures Pool.Returns(CountLog(counts), now) == CountsIn(counts, now)
  {
    if counts != [] {
      CountLogReturns(counts[..|counts| - 1], now);
      var log := CountLog(counts);
      assert log[..|log| - 1] == CountLog(counts[..|counts| - 1]);
    }
  }

  lemma {:induction false} SomeCountIn(counts: seq<Count>, now: int) returns (i: nat)
    requires CountsIn(counts, now) > 0
    ensures i < |counts| && InWindow(counts[i].epoch, now)
  {
    i := |counts| - 1;
    if !InWindow(counts[i].epoch, now) {
      i := SomeCountIn(counts[..i], now);
    }
  }

  lemma {:induction false} MaxCoversSample(samples: seq<Entry>, i: nat, now: int)
    requires i < |samples| && InWindow(samples[i].epoch, now)
    ensures WindowMax(samples, now) >= samples[i].amount
  {
    if i < |samples| - 1 {
      MaxCoversSample(samples[..|samples| - 1], i, now);
    }
  }

  lemma CountMeansSample(s: World, now: int)
    requires Inv(s) && !InReset(s) && (forall k :: 0 <= k < |s.threads| ==> !Halfway(s.threads[k])) && CountsIn(s.counts, now) > 0
    ensures WindowMax(s.samples, now) >= 1
  {
    var i := SomeCountIn(s.counts, now);
    assert SampledAt(s.samples, s.counts[i].epoch);
    var j :| 0 <= j < |s.samples| && s.samples[j].epoch == s.counts[i].epoch;
    MaxCoversSample(s.samples, j, now);
  }

  lemma RingsReadLogs(s: World, now: int)
    requires TimelyLog(CountLog(s.counts)) && TimelyLog(s.samples)
    requires now >= Newest(CountLog(s.counts)) && now >= Newest(s.samples)
    ensures VisibleSum(SumRing(CountWrites(CountLog(s.counts))), now) == CountsIn(s.counts, now)
    ensures VisibleMax(MaxRing(MaxWrites(s.samples)), now) == WindowMax(s.samples, now)
  {
    WritesOfLog(CountLog(s.counts), now);
    WritesOfLog(s.samples, now);
    SumRefinesLog(CountWrites(CountLog(s.counts)), now);
    MaxRefinesLog(MaxWrites(s.samples), now);
    CountLogReturns(s.counts, now);
  }

  /** Whenever no goroutine is between its count and its sample or in the middle of a reset,
      the counter is the number of returns counted in the last ten seconds, each of another
      goroutine, and if there was one the maximum lies between one and the size of the pool.
      At all times the active count is the number of goroutines holding a ticket. */
  lemma StatisticsAgreeConcurrently(trace: seq<World>, steps: seq<Step>, max: nat, n: nat, now: int)
    requires IsRun(trace, steps, max) && n <= |steps|
    requires var s := trace[n];
             && !InReset(s) && (forall k :: 0 <= k < |s.threads| ==> !Halfway(s.threads[k]))
             && TimelyLog(CountLog(s.counts)) && TimelyLog(s.samples)
             && now >= Newest(CountLog(s.counts)) && now >= Newest(s.samples)
    ensures var s := trace[n];
            var executed, maxActive := SumRing(CountWrites(CountLog(s.counts))), MaxRing(MaxWrites(s.samples));
            && VisibleSum(executed, now) == CountsIn(s.counts, now)
            && (VisibleSum(executed, now) > 0 ==> 1 <= VisibleMax(maxActive, now) <= max)
            && max - s.tickets == Holders(s.threads)
    ensures CountsOk(trace[n])
  {
    RunInv(trace, steps, max, n);
    RingsReadLogs(trace[n], now);
    WindowMaxBounds(trace[n].samples, now, max);
    if CountsIn(trace[n].counts, now) > 0 {
      CountMeansSample(trace[n], now);
    }
  }

  /** Without a reset, the counts are of all goroutines past their count. */
  predicate AllCounted(s: World) {
    && (forall k :: 0 <= k < |s.threads| ==> !s.threads[k].Clearing? && !s.threads[k].ClearingRest?)
    && (forall k :: 0 <= k < |s.threads| && (Halfway(s.threads[k]) || s.threads[k].Sending? || s.threads[k].Gone?) ==>
          Count(k, s.threads[k].now) in s.counts)
  }

  lemma {:induction false} NoReturnUncounted(trace: seq<World>, steps: seq<Step>, max: nat, n: nat)
    requires IsRun(trace, steps, max) && n <= |steps| && forall k :: 0 <= k < n ==> !steps[k].StartClear?
    ensures AllCounted(trace[n])
  {
    if n > 0 {
      NoReturnUncounted(trace, steps, max, n - 1);
      assert StepAt(trace, steps, n - 1);
      StaysCounted(trace[n - 1], steps[n - 1]);
    }
  }

  lemma StaysCounted(s: World, step: Step)
    requires AllCounted(s) && Enabled(s, step) && !step.StartClear?
    ensures AllCounted(Next(s, step))
  {
  }

  // ---------- what is sampled ----------

  /** At moment `k` of the run a goroutine looked at the active count, and `active` is how
      many goroutines held a ticket then. */
  predicate LookedAt(trace: seq<World>, steps: seq<Step>, k: nat, active: int)
    requires k < |steps| == |trace| - 1
  {
    && steps[k].Advance? && steps[k].id < |trace[k].threads| && trace[k].threads[steps[k].id].Sampling?
    && active == Holders(trace[k].threads)
  }

  predicate Witnessed(trace: seq<World>, steps: seq<Step>, n: nat, active: int)
    requires n <= |steps| == |trace| - 1
  {
    exists k :: 0 <= k < n && LookedAt(trace, steps, k, active)
  }

  predicate AllWitnessed(trace: seq<World>, steps: seq<Step>, n: nat)
    requires n <= |steps| == |trace| - 1
  {
    && (forall i :: 0 <= i < |trace[n].samples| ==> Witnessed(trace, steps, n, trace[n].samples[i].amount))
    && (forall i :: 0 <= i < |trace[n].threads| && trace[n].threads[i].Recording? ==>
          Witnessed(trace, steps, n, trace[n].threads[i].active))
  }

  lemma WitnessedLater(trace: seq<World>, steps: seq<Step>, n: nat, active: int)
    requires n < |steps| == |trace| - 1 && Witnessed(trace, steps, n, active)
    ensures Witnessed(trace, steps, n + 1, active)
  {
    var k :| 0 <= k < n && LookedAt(trace, steps, k, active);
    assert LookedAt(trace, steps, k, active);
  }

  /** A step records only what was seen before, and sees the number of holders. */
  lemma StepSees(s: World, step: Step)
    requires s.tickets + Holders(s.threads) == s.max && Enabled(s, step)
    ensures var s' := Next(s, step);
            && (forall i :: 0 <= i < |s'.samples| ==>
                  || (i < |s.samples| && s'.samples[i] == s.samples[i])
                  || (step.Advance? && s.threads[step.id].Recording? && s'.samples[i].amount == s.threads[step.id].active))
            && (forall i :: 0 <= i < |s'.threads| && s'.threads[i].Recording? ==>
                  || (i < |s.threads| && s.threads[i] == s'.threads[i])
                  || (step.Advance? && step.id == i && s.threads[i].Sampling? && s'.threads[i].active == Holders(s.threads)))
  {
  }

  /** Every sample, recorded or still to be, is the number of goroutines that held a ticket
      at the moment it was taken. */
  lemma {:induction false} SamplesAreHolders(trace: seq<World>, steps: seq<Step>, max: nat, n: nat)
    requires IsRun(trace, steps, max) && n <= |steps|
    ensures AllWitnessed(trace, steps, n)
  {
    if n > 0 {
      SamplesAreHolders(trace, steps, max, n - 1);
      RunInv(trace, steps, max, n - 1);
      assert StepAt(trace, steps, n - 1);
      SeenIsWitnessed(trace, steps, n - 1);
    }
  }

  lemma SeenIsWitnessed(trace: seq<World>, steps: seq<Step>, n: nat)
    requires n < |steps| == |trace| - 1 && StepAt(trace, steps, n) && AllWitnessed(trace, steps, n)
    requires trace[n].tickets + Holders(trace[n].threads) == trace[n].max
    ensures AllWitnessed(trace, steps, n + 1)
  {
    var s, step, s' := trace[n], steps[n], trace[n + 1];
    StepSees(s, step);
    forall i | 0 <= i < |s'.samples| ensures Witnessed(trace, steps, n + 1, s'.samples[i].amount) {
      assert Witnessed(trace, steps, n, s'.samples[i].amount);
      WitnessedLater(trace, steps, n, s'.samples[i].amount);
    }
    forall i | 0 <= i < |s'.threads| && s'.threads[i].Recording? ensures Witnessed(trace, steps, n + 1, s'.threads[i].active) {
      if i < |s.threads| && s.threads[i].Recording? {
        WitnessedLater(trace, steps, n, s'.threads[i].active);
      } else {
        assert LookedAt(trace, steps, n, s'.threads[i].active);
      }
    }
  }

  /** A reset empties the maximum with its first step and the counter with its second. */
  lemma ResetEmptiesBoth(trace: seq<World>, steps: seq<Step>, max: nat, n: nat)
    requires IsRun(trace, steps, max) && n < |steps| && steps[n].Advance? && steps[n].id < |trace[n].threads|
    ensures trace[n].threads[steps[n].id].Clearing? ==> trace[n + 1].samples == [] && InReset(trace[n + 1])
    ensures trace[n].threads[steps[n].id].ClearingRest? ==> trace[n + 1].counts == []
  {
    assert StepAt(trace, steps, n);
    assert trace[n].threads[steps[n].id].Clearing? ==> trace[n + 1].threads[steps[n].id].ClearingRest?;
  }
}
