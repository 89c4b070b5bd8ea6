/** `rolling.Timing`: the durations of the last minute, kept per second, and a sorted copy
    of them that is reused for one second.

    Clock readings are nanoseconds since the epoch and come in as arguments, one for each
    time the code asks for the time. */
module Timing {
  import opened Common
  import opened OrderStatistics

  const SECOND: nat := 1_000_000_000

  type Buckets = map<int, seq<int>>

  function Unix(t: nat): nat { t / SECOND }

  // ---------- sorting ----------

  lemma MultisetOfLast(s: seq<int>)
    requires s != []
    ensures multiset(s) == multiset(s[..|s| - 1]) + multiset{s[|s| - 1]}
    ensures multiset(s[..|s| - 1]) == multiset(s) - multiset{s[|s| - 1]}
  {
    assert s == s[..|s| - 1] + [s[|s| - 1]];
  }

  /** Stands for `sort.Sort`, of which only the result matters. */
  function Sort(s: seq<int>): (r: seq<int>)
    ensures Sorted(r) && multiset(r) == multiset(s)
  {
    if s == [] then []
    else
      MultisetOfLast(s);
      InsertKeepsAll(Sort(s[..|s| - 1]), s[|s| - 1]);
      Insert(Sort(s[..|s| - 1]), s[|s| - 1])
  }

  function Insert(s: seq<int>, x: int): (r: seq<int>)
    requires Sorted(s)
    ensures Sorted(r) && r != [] && (r[|r| - 1] == x || (s != [] && r[|r| - 1] == s[|s| - 1]))
  {
    if s == [] || s[|s| - 1] <= x then s + [x]
    else Insert(s[..|s| - 1], x) + [s[|s| - 1]]
  }

  lemma {:induction false} InsertKeepsAll(s: seq<int>, x: int)
    requires Sorted(s)
    ensures multiset(Insert(s, x)) == multiset(s) + multiset{x}
  {
    if s != [] && s[|s| - 1] > x {
      MultisetOfLast(s);
      InsertKeepsAll(s[..|s| - 1], x);
    }
  }

  lemma LastIsLargest(s: seq<int>, x: int)
    requires Sorted(s) && x in multiset(s)
    ensures s != [] && x <= s[|s| - 1]
  {
  }

  lemma SameLast(a: seq<int>, b: seq<int>)
    requires Sorted(a) && Sorted(b) && multiset(a) == multiset(b) && a != []
    ensures b != [] && a[|a| - 1] == b[|b| - 1]
  {
    assert a[|a| - 1] in a;
    LastIsLargest(b, a[|a| - 1]);
    assert b[|b| - 1] in b;
    LastIsLargest(a, b[|b| - 1]);
  }

  /** The sorted arrangement of a collection is unique. */
  lemma {:induction false} SortedUnique(a: seq<int>, b: seq<int>)
    requires Sorted(a) && Sorted(b) && multiset(a) == multiset(b)
    ensures a == b
  {
    if a == [] {
      assert b == [] by {
        if b != [] {
          MultisetOfLast(b);
        }
      }
    } else {
      SameLast(a, b);
      MultisetOfLast(a);
      MultisetOfLast(b);
      SortedUnique(a[..|a| - 1], b[..|b| - 1]);
      assert a == a[..|a| - 1] + [a[|a| - 1]];
      assert b == b[..|b| - 1] + [b[|b| - 1]];
    }
  }

  // ---------- what the operations do ----------

  function Current(buckets: Buckets, now: nat): Buckets {
    if Unix(now) in buckets then buckets else buckets[Unix(now) := []]
  }

  function Unexpired(buckets: Buckets, now: nat): Buckets {
    map k | k in buckets && k > Unix(now) - 60 :: buckets[k]
  }

  /** The clock is read at `t1` to find the bucket and at `t2` to expire old ones. */
  function Added(buckets: Buckets, duration: int, t1: nat, t2: nat): Buckets {
    var b := Current(buckets, t1);
    Unexpired(b[Unix(t1) := b[Unix(t1)] + [duration]], t2)
  }

  function Recent(buckets: Buckets, now: nat): Buckets {
    map k | k in buckets && k >= Unix(now) - 60 :: buckets[k]
  }

  ghost function Any<T>(s: set<T>): (x: T)
    requires s != {}
    ensures x in s
  {
    var x :| x in s; x
  }

  method Pick<T>(s: set<T>) returns (x: T)
    requires s != {}
    ensures x in s
  {
    x :| x in s;
  }

  /** All durations of all buckets. */
  ghost function Durations(buckets: Buckets): multiset<int>
    decreases |buckets|
  {
    if buckets.Keys == {} then multiset{}
    else
      var k := Any(buckets.Keys);
      multiset(buckets[k]) + Durations(buckets - {k})
  }

  lemma {:induction false} DurationsSplit(buckets: Buckets, k: int)
    requires k in buckets
    ensures Durations(buckets) == multiset(buckets[k]) + Durations(buckets - {k})
    decreases |buckets|
  {
    var j := Any(buckets.Keys);
    if j != k {
      var withoutJ, withoutK, rest := buckets - {j}, buckets - {k}, buckets - {j, k};
      assert withoutJ - {k} == rest == withoutK - {j};
      DurationsSplit(withoutJ, k);
      DurationsSplit(withoutK, j);
      Exchange(multiset(buckets[j]), multiset(buckets[k]), Durations(rest));
    }
  }

  lemma Exchange(a: multiset<int>, b: multiset<int>, rest: multiset<int>)
    ensures a + (b + rest) == b + (a + rest)
  {
  }

  lemma DurationsAppend(buckets: Buckets, k: int, s: seq<int>, d: int)
    requires k in buckets && buckets[k] == s + [d]
    ensures Durations(buckets) == Durations(buckets[k := s]) + multiset{d}
  {
    var before, rest := buckets[k := s], buckets - {k};
    DurationsSplit(buckets, k);
    DurationsSplit(before, k);
    assert before - {k} == rest;
    OneMore(s, d, Durations(rest));
  }

  lemma OneMore(s: seq<int>, d: int, rest: multiset<int>)
    ensures multiset(s + [d]) + rest == multiset(s) + rest + multiset{d}
  {
  }

  lemma DurationsSingle(buckets: Buckets, k: int, d: int)
    requires k in buckets && buckets[k] == [d]
    ensures Durations(buckets) == Durations(buckets - {k}) + multiset{d}
  {
    DurationsSplit(buckets, k);
  }

  /** The recent buckets among those with keys in `keys`. */
  function RecentAmong(buckets: Buckets, keys: set<int>, now: nat): Buckets {
    map k | k in buckets && k in keys && k >= Unix(now) - 60 :: buckets[k]
  }

  lemma CollectOne(buckets: Buckets, keys: set<int>, k: int, now: nat)
    requires k in keys && k in buckets
    ensures Durations(RecentAmong(buckets, keys, now))
         == Durations(RecentAmong(buckets, keys - {k}, now)) + multiset(if k >= Unix(now) - 60 then buckets[k] else [])
  {
    var all, rest := RecentAmong(buckets, keys, now), RecentAmong(buckets, keys - {k}, now);
    assert rest == all - {k};
    if k >= Unix(now) - 60 {
      DurationsSplit(all, k);
    } else {
      assert rest == all;
    }
  }

  ghost predicate Fresh(cachedAt: int, t1: nat) { cachedAt + SECOND > t1 }

  /** `result` is a sorted copy of what the buckets hold at `t2`. */
  ghost predicate Snapshot(result: seq<int>, buckets: Buckets, t2: nat) {
    Sorted(result) && multiset(result) == Durations(Recent(buckets, t2))
  }

  /** What asking for the sorted durations does to the cache: a cache younger than a second
      at `t1` is kept, an older one is replaced by a snapshot dated `t3`. */
  ghost predicate Requeried(buckets: Buckets, cached: seq<int>, cachedAt: int,
                            cached': seq<int>, cachedAt': int, t1: nat, t2: nat, t3: nat) {
    if Fresh(cachedAt, t1) then cached' == cached && cachedAt' == cachedAt
    else Snapshot(cached', buckets, t2) && cachedAt' == t3
  }

  // ---------- the structure in memory ----------

  class Timing {
    var buckets: Buckets
    var cachedSortedDurations: seq<int>
    var lastCachedTime: int

    ghost function Contents(): State
      reads this
    {
      State(buckets, cachedSortedDurations, lastCachedTime)
    }

    constructor ()
      ensures Contents() == INITIAL
    {
      buckets, cachedSortedDurations, lastCachedTime := map[], [], 0;
    }

    method GetCurrentBucket(now: nat)
      modifies this`buckets
      ensures buckets == Current(old(buckets), now)
    {
      if Unix(now) !in buckets {
        buckets := buckets[Unix(now) := []];
      }
    }

    method RemoveOldBuckets(now: nat)
      modifies this`buckets
      ensures buckets == Unexpired(old(buckets), now)
    {
      var all := buckets;
      var todo := all.Keys;
      while todo != {}
        invariant todo <= all.Keys
        invariant buckets == map k | k in all && (k in todo || k > Unix(now) - 60) :: all[k]
        decreases |todo|
      {
        var timestamp := Pick(todo);
        todo := todo - {timestamp};
        if timestamp <= Unix(now) - 60 {
          buckets := buckets - {timestamp};
        }
      }
    }

    method Add(duration: int, t1: nat, t2: nat)
      modifies this`buckets
      ensures buckets == Added(old(buckets), duration, t1, t2)
    {
      GetCurrentBucket(t1);
      buckets := buckets[Unix(t1) := buckets[Unix(t1)] + [duration]];
      RemoveOldBuckets(t2);
    }

    /** The clock is read at `t1` to judge the cache, at `t2` to choose the buckets and
        at `t3` to date the new cache. */
    method SortedDurations(t1: nat, t2: nat, t3: nat) returns (durations: seq<int>)
      modifies this`cachedSortedDurations, this`lastCachedTime
      ensures Requeried(old(buckets), old(cachedSortedDurations), old(lastCachedTime),
                        cachedSortedDurations, lastCachedTime, t1, t2, t3)
      ensures durations == cachedSortedDurations
    {
      if lastCachedTime + SECOND > t1 {
        return cachedSortedDurations;
      }
      durations := [];
      var todo := buckets.Keys;
      assert RecentAmong(buckets, todo, t2) == Recent(buckets, t2);
      while todo != {}
        invariant todo <= buckets.Keys
        invariant multiset(durations) + Durations(RecentAmong(buckets, todo, t2)) == Durations(Recent(buckets, t2))
        decreases |todo|
      {
        var timestamp := Pick(todo);
        CollectOne(buckets, todo, timestamp, t2);
        todo := todo - {timestamp};
        if timestamp >= Unix(t2) - 60 {
          durations := durations + buckets[timestamp];
        }
      }
      assert RecentAmong(buckets, {}, t2) == map[];
      durations := Sort(durations);
      cachedSortedDurations := durations;
      lastCachedTime := t3;
    }

    method Percentile(percentile: real, t1: nat, t2: nat, t3: nat) returns (milliseconds: int)
      requires 0.0 <= percentile <= 100.0
      modifies this`cachedSortedDurations, this`lastCachedTime
      ensures Requeried(old(buckets), old(cachedSortedDurations), old(lastCachedTime),
                        cachedSortedDurations, lastCachedTime, t1, t2, t3)
      ensures milliseconds == PercentileOf(cachedSortedDurations, percentile)
    {
      var sortedDurations := SortedDurations(t1, t2, t3);
      if |sortedDurations| == 0 {
        return 0;
      }
      OrdinalInRange(|sortedDurations|, percentile);
      var pos := Ordinal(|sortedDurations|, percentile) - 1;
      return ToUint32(Quotient(sortedDurations[pos], MILLISECOND));
    }

    method Mean(t1: nat, t2: nat, t3: nat) returns (milliseconds: int)
      modifies this`cachedSortedDurations, this`lastCachedTime
      ensures Requeried(old(buckets), old(cachedSortedDurations), old(lastCachedTime),
                        cachedSortedDurations, lastCachedTime, t1, t2, t3)
      ensures milliseconds == MeanOf(cachedSortedDurations)
    {
      var sortedDurations := SortedDurations(t1, t2, t3);
      var sum := 0;
      for i := 0 to |sortedDurations|
        invariant sum == WrappedTotal(sortedDurations[..i])
      {
        assert sortedDurations[..i + 1][..i] == sortedDurations[..i];
        sum := WrapInt64(sum + sortedDurations[i]);
      }
      assert sortedDurations[..|sortedDurations|] == sortedDurations;
      if |sortedDurations| == 0 {
        return 0;
      }
      return ToUint32(Quotient(sum, |sortedDurations|)) / MILLISECOND;
    }

    method Reset()
      modifies this
      ensures Contents() == INITIAL
    {
      buckets := map[];
      lastCachedTime := 0;
      cachedSortedDurations := [];
    }
  }

  // ---------- whole runs ----------

  datatype Op =
    | Add(duration: int, t1: nat, t2: nat)
    | Query(t1: nat, t2: nat, t3: nat)
    | Reset(t: nat)

  datatype State = State(buckets: Buckets, cached: seq<int>, cachedAt: int)

  const INITIAL: State := State(map[], [], 0)

  /** One operation, with the contract of the method of `Timing` that it calls. */
  ghost predicate Next(s: State, op: Op, s': State) {
    match op
    case Add(duration, t1, t2) => s' == s.(buckets := Added(s.buckets, duration, t1, t2))
    case Query(t1, t2, t3) =>
      s'.buckets == s.buckets && Requeried(s.buckets, s.cached, s.cachedAt, s'.cached, s'.cachedAt, t1, t2, t3)
    case Reset(_) => s' == INITIAL
  }

  function First(op: Op): nat { match op case Add(t1, _, _) => op.t1 case Query(t1, _, _) => t1 case Reset(t) => t }
  function Last(op: Op): nat { match op case Add(_, _, t2) => t2 case Query(_, _, t3) => t3 case Reset(t) => t }

  /** A run whose clock never goes back and starts a second or more after the epoch. */
  ghost predicate IsRun(trace: seq<State>, ops: seq<Op>) {
    && |trace| == |ops| + 1
    && trace[0] == INITIAL
    && (forall k :: 0 <= k < |ops| ==> Next(trace[k], ops[k], trace[k + 1]))
    && (forall k :: 0 <= k < |ops| ==> SECOND <= First(ops[k]) <= Last(ops[k]))
    && (forall k :: 0 <= k < |ops| && ops[k].Query? ==> ops[k].t1 <= ops[k].t2 <= ops[k].t3)
    && (forall j, k :: 0 <= j < k < |ops| ==> Last(ops[j]) <= First(ops[k]))
  }

  datatype Sample = Sample(second: int, duration: int)

  /** The durations added since the last reset, each with the second it was added in. */
  function Log(ops: seq<Op>): seq<Sample> {
    if ops == [] || ops[|ops| - 1].Reset? then []
    else if ops[|ops| - 1].Query? then Log(ops[..|ops| - 1])
    else Log(ops[..|ops| - 1]) + [Sample(Unix(ops[|ops| - 1].t1), ops[|ops| - 1].duration)]
  }

  /** Adding removes what is a minute old or older; this is the last second removed. */
  function Cutoff(ops: seq<Op>): int {
    if ops == [] || ops[|ops| - 1].Reset? then -1
    else if ops[|ops| - 1].Query? then Cutoff(ops[..|ops| - 1])
    else
      var c := Cutoff(ops[..|ops| - 1]);
      if c < Unix(ops[|ops| - 1].t2) - 60 then Unix(ops[|ops| - 1].t2) - 60 else c
  }

  function At(log: seq<Sample>, second: int): seq<int> {
    if log == [] then []
    else At(log[..|log| - 1], second) + if log[|log| - 1].second == second then [log[|log| - 1].duration] else []
  }

  /** The durations of the samples later than second `after`. */
  function After(log: seq<Sample>, after: int): seq<int> {
    if log == [] then []
    else After(log[..|log| - 1], after) + if log[|log| - 1].second > after then [log[|log| - 1].duration] else []
  }

  /** The buckets hold exactly the samples later than the cutoff, in the order added. */
  ghost predicate Holds(buckets: Buckets, log: seq<Sample>, cutoff: int) {
    forall k: int ::
      && (k in buckets <==> k > cutoff && At(log, k) != [])
      && (k in buckets ==> buckets[k] == At(log, k))
  }

  lemma AddHolds(buckets: Buckets, log: seq<Sample>, cutoff: int, duration: int, t1: nat, t2: nat)
    requires Holds(buckets, log, cutoff) && cutoff < Unix(t1)
    ensures Holds(Added(buckets, duration, t1, t2), log + [Sample(Unix(t1), duration)],
                  if cutoff < Unix(t2) - 60 then Unix(t2) - 60 else cutoff)
  {
  }

  lemma OpHolds(init: seq<Op>, op: Op, s: State, s': State)
    requires Holds(s.buckets, Log(init), Cutoff(init)) && Next(s, op, s')
    requires Cutoff(init) < Unix(First(op)) && SECOND <= First(op) <= Last(op)
    ensures Holds(s'.buckets, Log(init + [op]), Cutoff(init + [op]))
    ensures Cutoff(init + [op]) < Unix(Last(op))
  {
    assert (init + [op])[..|init|] == init;
    if op.Add? {
      AddHolds(s.buckets, Log(init), Cutoff(init), op.duration, op.t1, op.t2);
    }
  }

  lemma {:induction false} RunHolds(trace: seq<State>, ops: seq<Op>, n: nat)
    requires IsRun(trace, ops) && n <= |ops|
    ensures Holds(trace[n].buckets, Log(ops[..n]), Cutoff(ops[..n]))
    ensures Cutoff(ops[..n]) < if n == 0 then 0 else Unix(Last(ops[n - 1]))
  {
    if n > 0 {
      RunHolds(trace, ops, n - 1);
      assert n > 1 ==> Last(ops[n - 2]) <= First(ops[n - 1]);
      assert ops[..n] == ops[..n - 1] + [ops[n - 1]];
      OpHolds(ops[..n - 1], ops[n - 1], trace[n - 1], trace[n]);
    }
  }

  lemma {:induction false} DurationsOfLog(buckets: Buckets, log: seq<Sample>, after: int)
    requires Holds(buckets, log, after)
    ensures Durations(buckets) == multiset(After(log, after))
  {
    if log == [] {
      if buckets.Keys != {} {
        var k := Any(buckets.Keys);
        assert false;
      }
    } else {
      var init, last := log[..|log| - 1], log[|log| - 1];
      if last.second <= after {
        DurationsOfLog(buckets, init, after);
      } else {
        var k := last.second;
        assert k in buckets && buckets[k] == At(init, k) + [last.duration];
        if At(init, k) == [] {
          HoldsWithout(buckets, log, after);
          DurationsOfLog(buckets - {k}, init, after);
          DurationsSingle(buckets, k, last.duration);
        } else {
          HoldsWithout(buckets, log, after);
          DurationsOfLog(buckets[k := At(init, k)], init, after);
          DurationsAppend(buckets, k, At(init, k), last.duration);
        }
      }
    }
  }

  /** Taking the last sample of the log back out of the buckets. */
  lemma HoldsWithout(buckets: Buckets, log: seq<Sample>, after: int)
    requires log != [] && Holds(buckets, log, after) && log[|log| - 1].second > after
    ensures var init, k := log[..|log| - 1], log[|log| - 1].second;
            Holds(if At(init, k) == [] then buckets - {k} else buckets[k := At(init, k)], init, after)
  {
  }

  /** Recomputing at operation `n` collects exactly the samples since the last reset that
      are at most a minute old and later than everything an `Add` has removed. */
  lemma SnapshotIsTheWindow(trace: seq<State>, ops: seq<Op>, n: nat, result: seq<int>)
    requires IsRun(trace, ops) && n < |ops| && ops[n].Query?
    requires Snapshot(result, trace[n].buckets, ops[n].t2)
    ensures var oldest, cutoff := Unix(ops[n].t2) - 60, Cutoff(ops[..n]);
            result == Sort(After(Log(ops[..n]), if cutoff >= oldest then cutoff else oldest - 1))
  {
    RunHolds(trace, ops, n);
    var oldest, cutoff := Unix(ops[n].t2) - 60, Cutoff(ops[..n]);
    var after := if cutoff >= oldest then cutoff else oldest - 1;
    DurationsOfLog(Recent(trace[n].buckets, ops[n].t2), Log(ops[..n]), after);
    SortedUnique(result, Sort(After(Log(ops[..n]), after)));
  }

  /** Nothing younger than a minute is ever missing: an `Add` removes only what no later
      snapshot would show, except the one second that is exactly a minute old. */
  lemma CutoffBehindWindow(trace: seq<State>, ops: seq<Op>, n: nat)
    requires IsRun(trace, ops) && n < |ops| && ops[n].Query?
    ensures Cutoff(ops[..n]) <= Unix(ops[n].t2) - 60 || Cutoff(ops[..n]) == -1
  {
    CutoffBound(trace, ops, n);
  }

  lemma {:induction false} CutoffBound(trace: seq<State>, ops: seq<Op>, n: nat)
    requires IsRun(trace, ops) && n <= |ops|
    ensures Cutoff(ops[..n]) == -1 || (n > 0 && Cutoff(ops[..n]) <= Unix(Last(ops[n - 1])) - 60)
  {
    if n > 0 {
      CutoffBound(trace, ops, n - 1);
      assert ops[..n][..n - 1] == ops[..n - 1];
      if n > 1 {
        assert Last(ops[n - 2]) <= First(ops[n - 1]);
      }
    }
  }

  /** The cache always holds the snapshot of an earlier query `m`, dated when that query
      finished, with no reset since; or it was never filled since the last reset. */
  ghost predicate CacheFrom(trace: seq<State>, ops: seq<Op>, n: nat, m: nat)
    requires |trace| == |ops| + 1 && m < n <= |ops|
  {
    && ops[m].Query? && (forall k :: m < k < n ==> !ops[k].Reset?)
    && trace[n].cachedAt == ops[m].t3
    && Snapshot(trace[n].cached, trace[m].buckets, ops[m].t2)
  }

  lemma {:induction false} CacheProvenance(trace: seq<State>, ops: seq<Op>, n: nat) returns (m: nat)
    requires IsRun(trace, ops) && n <= |ops|
    ensures trace[n].cachedAt == 0 || (m < n && CacheFrom(trace, ops, n, m))
  {
    m := 0;
    if n > 0 {
      m := CacheProvenance(trace, ops, n - 1);
      assert Next(trace[n - 1], ops[n - 1], trace[n]);
      if ops[n - 1].Query? && !Fresh(trace[n - 1].cachedAt, ops[n - 1].t1) {
        m := n - 1;
      }
    }
  }

  /** What a query returns, whether from the cache or not, is the sorted window as some
      query `m` saw it less than a second ago, with no reset in between. */
  lemma QueryIsRecentWindow(trace: seq<State>, ops: seq<Op>, n: nat) returns (m: nat)
    requires IsRun(trace, ops) && n < |ops| && ops[n].Query?
    ensures m <= n && ops[m].Query? && (forall k :: m < k <= n ==> !ops[k].Reset?)
    ensures m < n ==> ops[n].t1 < ops[m].t3 + SECOND
    ensures var oldest, cutoff := Unix(ops[m].t2) - 60, Cutoff(ops[..m]);
            trace[n + 1].cached == Sort(After(Log(ops[..m]), if cutoff >= oldest then cutoff else oldest - 1))
  {
    assert Next(trace[n], ops[n], trace[n + 1]);
    assert First(ops[n]) >= SECOND;
    m := CacheProvenance(trace, ops, n);
    if !Fresh(trace[n].cachedAt, ops[n].t1) {
      m := n;
    }
    SnapshotIsTheWindow(trace, ops, m, trace[n + 1].cached);
  }

  // ---------- the window in nanoseconds ----------

  datatype Stamped = Stamped(time: nat, duration: int)

  /** What was added since the last reset, with the nanosecond it was added at. */
  function StampedLog(ops: seq<Op>): seq<Stamped> {
    if ops == [] || ops[|ops| - 1].Reset? then []
    else if ops[|ops| - 1].Query? then StampedLog(ops[..|ops| - 1])
    else StampedLog(ops[..|ops| - 1]) + [Stamped(ops[|ops| - 1].t1, ops[|ops| - 1].duration)]
  }

  /** The durations stamped at `from` or later. */
  function From(log: seq<Stamped>, from: int): multiset<int> {
    if log == [] then multiset{}
    else
      var last := log[|log| - 1];
      From(log[..|log| - 1], from) + if last.time >= from then multiset{last.duration} else multiset{}
  }

  predicate SameLog(log: seq<Sample>, stamped: seq<Stamped>) {
    |log| == |stamped| && forall i :: 0 <= i < |log| ==> log[i] == Sample(Unix(stamped[i].time), stamped[i].duration)
  }

  lemma {:induction false} LogIsStamped(ops: seq<Op>)
    ensures SameLog(Log(ops), StampedLog(ops))
  {
    if ops != [] && !ops[|ops| - 1].Reset? {
      LogIsStamped(ops[..|ops| - 1]);
    }
  }

  lemma MultisetAppend(s: seq<int>, x: int)
    ensures multiset(s + [x]) == multiset(s) + multiset{x}
  {
  }

  /** Selecting by seconds later than `after` takes in all nanoseconds from `late` on, and
      none before `early`. */
  ghost predicate SelectsWithin(after: int, early: int, late: int) {
    forall t: nat :: (t >= late ==> Unix(t) > after) && (Unix(t) > after ==> t >= early)
  }

  lemma {:induction false} SelectsBetween(log: seq<Sample>, stamped: seq<Stamped>, after: int, early: int, late: int)
    requires SameLog(log, stamped) && SelectsWithin(after, early, late)
    ensures From(stamped, late) <= multiset(After(log, after)) <= From(stamped, early)
  {
    if log != [] {
      var init := log[..|log| - 1];
      SelectsBetween(init, stamped[..|stamped| - 1], after, early, late);
      var last := stamped[|stamped| - 1];
      assert log[|log| - 1] == Sample(Unix(last.time), last.duration);
      MultisetAppend(After(init, after), last.duration);
      assert After(init, after) + [] == After(init, after);
    }
  }

  /** Seconds later than `after` are those of the last minute, give or take the last one. */
  predicate MinuteBack(after: int, now: nat) {
    Unix(now) - 61 <= after <= Unix(now) - 60 || (after == -1 && after >= Unix(now) - 60)
  }

  lemma SnapshotIsAMinute(trace: seq<State>, ops: seq<Op>, n: nat, result: seq<int>) returns (after: int)
    requires IsRun(trace, ops) && n < |ops| && ops[n].Query?
    requires Snapshot(result, trace[n].buckets, ops[n].t2)
    ensures MinuteBack(after, ops[n].t2) && result == Sort(After(Log(ops[..n]), after))
  {
    SnapshotIsTheWindow(trace, ops, n, result);
    CutoffBehindWindow(trace, ops, n);
    var oldest: int := Unix(ops[n].t2) - 60;
    after := if Cutoff(ops[..n]) >= oldest then Cutoff(ops[..n]) else oldest - 1;
  }

  lemma MinuteSelects(now: nat, after: int)
    requires MinuteBack(after, now)
    ensures SelectsWithin(after, now - 60_999_999_999, now - 59_000_000_000)
  {
  }

  /** The durations, in whatever order, are those stamped in the fifty-nine seconds up to
      `now`, and perhaps some of those stamped less than two seconds before that. */
  ghost predicate ShowsMinute(durations: multiset<int>, log: seq<Stamped>, now: int) {
    From(log, now - 59_000_000_000) <= durations <= From(log, now - 60_999_999_999)
  }

  lemma ShownIsMinute(ops: seq<Op>, after: int, now: nat)
    requires MinuteBack(after, now)
    ensures ShowsMinute(multiset(After(Log(ops), after)), StampedLog(ops), now)
  {
    MinuteSelects(now, after);
    LogIsStamped(ops);
    var t: int := now;
    SelectsBetween(Log(ops), StampedLog(ops), after, t - 60_999_999_999, t - 59_000_000_000);
  }

  /** A recomputed query shows, among the durations added since the last reset, each that is
      at most fifty-nine seconds old, none that is sixty-one seconds old or older, and
      nothing else. */
  lemma WindowInNanoseconds(trace: seq<State>, ops: seq<Op>, n: nat, result: seq<int>)
    requires IsRun(trace, ops) && n < |ops| && ops[n].Query?
    requires Snapshot(result, trace[n].buckets, ops[n].t2)
    ensures ShowsMinute(multiset(result), StampedLog(ops[..n]), ops[n].t2)
  {
    var after := SnapshotIsAMinute(trace, ops, n, result);
    ShownIsMinute(ops[..n], after, ops[n].t2);
  }

  /** A snapshot answers all queries of the second after it was dated, whatever was added
      meanwhile, unless there is a reset; and no query after that. */
  lemma {:induction false} CacheIsKept(trace: seq<State>, ops: seq<Op>, m: nat, n: nat)
    requires IsRun(trace, ops) && m <= n <= |ops|
    requires forall k :: m <= k < n ==> !ops[k].Reset? && (ops[k].Query? ==> ops[k].t1 < trace[m].cachedAt + 1_000_000_000)
    ensures trace[n].cached == trace[m].cached && trace[n].cachedAt == trace[m].cachedAt
  {
    if m < n {
      CacheIsKept(trace, ops, m, n - 1);
      assert Next(trace[n - 1], ops[n - 1], trace[n]);
    }
  }

  lemma StaleCacheIsReplaced(trace: seq<State>, ops: seq<Op>, n: nat)
    requires IsRun(trace, ops) && n < |ops| && ops[n].Query? && ops[n].t1 >= trace[n].cachedAt + 1_000_000_000
    ensures trace[n + 1].cachedAt == ops[n].t3
    ensures ShowsMinute(multiset(trace[n + 1].cached), StampedLog(ops[..n]), ops[n].t2)
  {
    assert Next(trace[n], ops[n], trace[n + 1]);
    WindowInNanoseconds(trace, ops, n, trace[n + 1].cached);
  }

  // ---------- longer runs ----------

  lemma RecomputedShows(trace: seq<State>, ops: seq<Op>, n: nat) returns (after: int)
    requires IsRun(trace, ops) && n < |ops| && ops[n].Query? && ops[n].t1 >= trace[n].cachedAt + 1_000_000_000
    ensures MinuteBack(after, ops[n].t2)
    ensures trace[n + 1].cached == Sort(After(Log(ops[..n]), after)) && trace[n + 1].cachedAt == ops[n].t3
  {
    assert Next(trace[n], ops[n], trace[n + 1]);
    after := SnapshotIsAMinute(trace, ops, n, trace[n + 1].cached);
  }

  /** One operation more, at a time not before the others. */
  lemma ExtendRun(trace: seq<State>, ops: seq<Op>, op: Op, s: State)
    requires IsRun(trace, ops) && Next(trace[|ops|], op, s)
    requires SECOND <= First(op) <= Last(op) && (op.Query? ==> op.t1 <= op.t2 <= op.t3)
    requires forall j :: 0 <= j < |ops| ==> Last(ops[j]) <= First(op)
    ensures IsRun(trace + [s], ops + [op])
  {
    var trace', ops' := trace + [s], ops + [op];
    forall k | 0 <= k < |ops'| ensures Next(trace'[k], ops'[k], trace'[k + 1]) {
      assert k < |ops| ==> Next(trace[k], ops[k], trace[k + 1]);
    }
  }

  // ---------- at most sixty buckets ----------

  lemma {:induction false} RangeSize(s: set<int>, lo: int, hi: int)
    requires lo <= hi && forall x :: x in s ==> lo <= x < hi
    ensures |s| <= hi - lo
    decreases hi - lo
  {
    if lo == hi {
      assert s == {};
    } else {
      RangeSize(s - {hi - 1}, lo, hi - 1);
      assert |s| <= |s - {hi - 1}| + 1;
    }
  }

  lemma AtMostSixtyBuckets(trace: seq<State>, ops: seq<Op>, n: nat)
    requires IsRun(trace, ops) && n < |ops| && ops[n].Add?
    ensures |trace[n + 1].buckets| <= 60
  {
    RunHolds(trace, ops, n + 1);
    assert Next(trace[n], ops[n], trace[n + 1]);
    var now := Unix(ops[n].t2);
    LogNotAhead(trace, ops, n + 1);
    var buckets, log := trace[n + 1].buckets, Log(ops[..n + 1]);
    forall k: int | k in buckets ensures now - 59 <= k < now + 1 {
      AtOfLog(log, k, now);
    }
    RangeSize(buckets.Keys, now - 59, now + 1);
    assert |buckets| == |buckets.Keys|;
  }

  lemma {:induction false} LogNotAhead(trace: seq<State>, ops: seq<Op>, n: nat)
    requires IsRun(trace, ops) && 0 < n <= |ops|
    ensures forall x :: x in Log(ops[..n]) ==> x.second <= Unix(Last(ops[n - 1]))
  {
    assert ops[..n][..n - 1] == ops[..n - 1];
    if n > 1 {
      LogNotAhead(trace, ops, n - 1);
      assert Last(ops[n - 2]) <= First(ops[n - 1]);
    } else {
      assert ops[..0] == [];
    }
  }

  lemma {:induction false} AtOfLog(log: seq<Sample>, k: int, now: int)
    requires At(log, k) != [] && forall x :: x in log ==> x.second <= now
    ensures k <= now
  {
    if log[|log| - 1].second != k {
      AtOfLog(log[..|log| - 1], k, now);
    }
  }
}
