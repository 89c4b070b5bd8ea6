/** The rolling counter: an 11-slot ring of one-second buckets that stands in for the
    full log of timestamped amounts, restricted to the last ten seconds.

    Epochs are whole seconds.  A slot is chosen by `epoch % 11`, an expired bucket is
    replaced only when a write lands on its slot, and readers skip the buckets that are
    too old.  `Number` is the in-place ring; the functions on `Ring` say what each of its
    operations does, and the lemmas relate whole runs of them to the log. */
module RollingNumber {

  const SIZE: nat := 11

  datatype Bucket = Bucket(key: int, value: int)

  type Ring = ring: seq<Bucket> | |ring| == SIZE witness EMPTY

  /** The bucket a ring is created with in every slot: second 0, nothing counted. */
  const ZERO: Bucket := Bucket(0, 0)

  const EMPTY: seq<Bucket> := [ZERO, ZERO, ZERO, ZERO, ZERO, ZERO, ZERO, ZERO, ZERO, ZERO, ZERO]

  function Max(a: int, b: int): int { if a < b then b else a }

  // ---------- one operation on the ring ----------

  function Slot(epoch: nat): (slot: nat)
    ensures slot < SIZE
  {
    epoch % SIZE
  }

  /** The bucket a write at `epoch` works on: the one in place if it is of that second,
      otherwise a new one that evicts it. */
  function BucketAt(ring: Ring, epoch: nat): Bucket {
    if ring[Slot(epoch)].key == epoch then ring[Slot(epoch)] else Bucket(epoch, 0)
  }

  function Bump(ring: Ring, epoch: nat, amount: int): Ring {
    if amount == 0 then ring
    else
      var b := BucketAt(ring, epoch);
      ring[Slot(epoch) := b.(value := b.value + amount)]
  }

  function Raise(ring: Ring, epoch: nat, n: int): Ring {
    var b := BucketAt(ring, epoch);
    ring[Slot(epoch) := b.(value := Max(b.value, n))]
  }

  function Visible(b: Bucket, now: int): int {
    if b.key >= now - 10 then b.value else 0
  }

  function VisibleSum(buckets: seq<Bucket>, now: int): int {
    if buckets == [] then 0
    else VisibleSum(buckets[..|buckets| - 1], now) + Visible(buckets[|buckets| - 1], now)
  }

  function VisibleMax(buckets: seq<Bucket>, now: int): int {
    if buckets == [] then 0
    else Max(VisibleMax(buckets[..|buckets| - 1], now), Visible(buckets[|buckets| - 1], now))
  }

  // ---------- the ring in memory ----------

  /** `rolling.Number` used by one goroutine at a time.  `LockFreeNumber` has the
      interleavings of several. */
  class Number {
    const buckets: array<Bucket>

    ghost predicate Valid() { buckets.Length == SIZE }

    ghost function Contents(): Ring
      requires Valid()
      reads buckets
    {
      buckets[..]
    }

    constructor ()
      ensures Valid() && fresh(buckets) && Contents() == EMPTY
    {
      buckets := new Bucket[SIZE](_ => ZERO);
    }

    method GetBucketAt(epoch: nat) returns (slot: nat)
      requires Valid()
      modifies buckets
      ensures slot == Slot(epoch)
      ensures Contents() == old(Contents())[slot := BucketAt(old(Contents()), epoch)]
    {
      slot := epoch % SIZE;
      if buckets[slot].key != epoch {
        buckets[slot] := Bucket(epoch, 0);
      }
    }

    method IncrementAt(epoch: nat, amount: int)
      requires Valid()
      modifies buckets
      ensures Contents() == Bump(old(Contents()), epoch, amount)
    {
      if amount == 0 {
        return;
      }
      var slot := GetBucketAt(epoch);
      buckets[slot] := buckets[slot].(value := buckets[slot].value + amount);
    }

    method UpdateMaxAt(epoch: nat, n: int)
      requires Valid()
      modifies buckets
      ensures Contents() == Raise(old(Contents()), epoch, n)
    {
      var slot := GetBucketAt(epoch);
      if n > buckets[slot].value {
        buckets[slot] := buckets[slot].(value := n);
      }
    }

    method Sum(now: int) returns (sum: int)
      requires Valid()
      ensures sum == VisibleSum(Contents(), now)
    {
      var minKey := now - 10;
      sum := 0;
      for i := 0 to buckets.Length
        invariant sum == VisibleSum(buckets[..i], now)
      {
        assert buckets[..i + 1][..i] == buckets[..i];
        if buckets[i].key >= minKey {
          sum := sum + buckets[i].value;
        }
      }
      assert buckets[..buckets.Length] == buckets[..];
    }

    method MaxValue(now: int) returns (max: int)
      requires Valid()
      ensures max == VisibleMax(Contents(), now)
    {
      var minKey := now - 10;
      max := 0;
      for i := 0 to buckets.Length
        invariant max == VisibleMax(buckets[..i], now) >= 0
      {
        assert buckets[..i + 1][..i] == buckets[..i];
        if buckets[i].key >= minKey && buckets[i].value > max {
          max := buckets[i].value;
        }
      }
      assert buckets[..buckets.Length] == buckets[..];
    }

    method Reset()
      requires Valid()
      modifies buckets
      ensures Contents() == EMPTY
    {
      for i := 0 to buckets.Length
        invariant forall k :: 0 <= k < i ==> buckets[k] == ZERO
      {
        buckets[i] := ZERO;
      }
    }
  }

  // ---------- the log the ring stands for ----------

  datatype Entry = Entry(epoch: nat, amount: int)

  function Newest(log: seq<Entry>): nat {
    if log == [] then 0 else Max(Newest(log[..|log| - 1]), log[|log| - 1].epoch)
  }

  predicate InWindow(epoch: int, now: int) { now - 10 <= epoch <= now }

  function WindowSum(log: seq<Entry>, now: int): int {
    if log == [] then 0
    else
      var last := log[|log| - 1];
      WindowSum(log[..|log| - 1], now) + if InWindow(last.epoch, now) then last.amount else 0
  }

  /** The largest amount of the window, or 0 when there is none above 0. */
  function WindowMax(log: seq<Entry>, now: int): int {
    if log == [] then 0
    else
      var last := log[|log| - 1];
      Max(WindowMax(log[..|log| - 1], now), if InWindow(last.epoch, now) then last.amount else 0)
  }

  ghost predicate SumAgrees(ring: Ring, log: seq<Entry>) {
    forall now :: now >= Newest(log) ==> VisibleSum(ring, now) == WindowSum(log, now)
  }

  ghost predicate MaxAgrees(ring: Ring, log: seq<Entry>) {
    forall now :: now >= Newest(log) ==> VisibleMax(ring, now) == WindowMax(log, now)
  }

  /** Every bucket sits in the slot of its second, or is one the ring was created with. */
  predicate Shaped(ring: Ring, newest: nat) {
    forall i :: 0 <= i < SIZE ==>
      && 0 <= ring[i].key <= newest
      && (ring[i] == ZERO || Slot(ring[i].key) == i)
  }

  /** A write at `epoch` evicts a younger bucket that readers can still see. */
  predicate Clobbers(ring: Ring, newest: nat, epoch: nat, amount: int) {
    var evicted := ring[Slot(epoch)];
    amount != 0 && evicted.value != 0 && evicted.key > epoch && evicted.key >= newest - 10
  }

  // ---------- single steps ----------

  lemma {:induction false} SumAfterStore(buckets: seq<Bucket>, slot: nat, b: Bucket, now: int)
    requires slot < |buckets|
    ensures VisibleSum(buckets[slot := b], now)
         == VisibleSum(buckets, now) - Visible(buckets[slot], now) + Visible(b, now)
  {
    var init := buckets[..|buckets| - 1];
    if slot < |init| {
      SumAfterStore(init, slot, b, now);
      assert buckets[slot := b][..|buckets| - 1] == init[slot := b];
    } else {
      assert buckets[slot := b][..|buckets| - 1] == init;
    }
  }

  lemma {:induction false} MaxAfterStore(buckets: seq<Bucket>, slot: nat, b: Bucket, now: int)
    requires slot < |buckets|
    requires Visible(buckets[slot], now) <= Visible(b, now)
    ensures VisibleMax(buckets[slot := b], now) == Max(VisibleMax(buckets, now), Visible(b, now))
    ensures VisibleMax(buckets, now) >= Visible(buckets[slot], now)
  {
    var init := buckets[..|buckets| - 1];
    if slot < |init| {
      MaxAfterStore(init, slot, b, now);
      assert buckets[slot := b][..|buckets| - 1] == init[slot := b];
    } else {
      assert buckets[slot := b][..|buckets| - 1] == init;
    }
  }

  /** Two buckets of one slot that differ in time are a whole ring apart. */
  lemma SameSlotApart(a: nat, b: nat)
    requires Slot(a) == Slot(b) && a < b
    ensures a + SIZE <= b
  {
  }

  /** A writer at most ten seconds late finds its own bucket, or an expired one. */
  lemma TimelyEvictsOnlyExpired(ring: Ring, newest: nat, epoch: nat)
    requires Shaped(ring, newest) && epoch >= newest - 10
    ensures var b := ring[Slot(epoch)]; b.key == epoch || b == ZERO || b.key + SIZE <= epoch
  {
  }

  /** What a reader at `now` misses because a late write at `epoch` evicts a younger bucket. */
  function LostTo(ring: Ring, epoch: nat, now: int): int {
    var evicted := ring[Slot(epoch)];
    if evicted.key > epoch then Visible(evicted, now) else 0
  }

  lemma StoreStaysShaped(ring: Ring, newest: nat, epoch: nat, value: int)
    requires Shaped(ring, newest)
    ensures Shaped(ring[Slot(epoch) := Bucket(epoch, value)], Max(newest, epoch))
  {
  }

  lemma EvictedIsApart(ring: Ring, newest: nat, epoch: nat)
    requires Shaped(ring, newest)
    ensures var b := ring[Slot(epoch)];
            b.key == epoch || b == ZERO || b.key + SIZE <= epoch || epoch + SIZE <= b.key <= newest
  {
    var b := ring[Slot(epoch)];
    if b != ZERO && b.key < epoch {
      SameSlotApart(b.key, epoch);
    } else if b != ZERO && b.key > epoch {
      SameSlotApart(epoch, b.key);
    }
  }

  /** An increment, however late: what readers see and what it makes them miss add up. */
  lemma IncrementAccount(ring: Ring, newest: nat, epoch: nat, amount: int, now: int)
    requires Shaped(ring, newest) && now >= newest && now >= epoch && amount != 0
    ensures VisibleSum(Bump(ring, epoch, amount), now) + LostTo(ring, epoch, now)
         == VisibleSum(ring, now) + if InWindow(epoch, now) then amount else 0
  {
    EvictedIsApart(ring, newest, epoch);
    SumAfterStore(ring, Slot(epoch), Bump(ring, epoch, amount)[Slot(epoch)], now);
  }

  lemma RaiseAccount(ring: Ring, newest: nat, epoch: nat, n: int, now: int)
    requires Shaped(ring, newest) && now >= newest && now >= epoch && Nonnegative(ring)
    ensures Max(VisibleMax(Raise(ring, epoch, n), now), LostTo(ring, epoch, now))
         == Max(VisibleMax(ring, now), if InWindow(epoch, now) then n else 0)
  {
    var slot, ring' := Slot(epoch), Raise(ring, epoch, n);
    EvictedIsApart(ring, newest, epoch);
    VisibleMaxNonnegative(ring, now);
    if ring[slot].key > epoch {
      MaxAfterStore(ring', slot, ring[slot], now);
      assert ring'[slot := ring[slot]] == ring;
    } else {
      MaxAfterStore(ring, slot, ring'[slot], now);
    }
  }

  predicate Nonnegative(ring: Ring) { forall i :: 0 <= i < SIZE ==> ring[i].value >= 0 }

  lemma AppendToLog(log: seq<Entry>, e: Entry, now: int)
    ensures Newest(log + [e]) == Max(Newest(log), e.epoch)
    ensures WindowSum(log + [e], now) == WindowSum(log, now) + if InWindow(e.epoch, now) then e.amount else 0
    ensures WindowMax(log + [e], now) == Max(WindowMax(log, now), if InWindow(e.epoch, now) then e.amount else 0)
  {
    assert (log + [e])[..|log|] == log;
  }

  /** One increment keeps the ring equal to the log for every later reader, unless it
      clobbers: exactly then some reader from now on sees the wrong sum. */
  lemma IncrementExact(ring: Ring, log: seq<Entry>, epoch: nat, amount: int)
    requires Shaped(ring, Newest(log)) && SumAgrees(ring, log)
    ensures Shaped(Bump(ring, epoch, amount), Newest(log + [Entry(epoch, amount)]))
    ensures SumAgrees(Bump(ring, epoch, amount), log + [Entry(epoch, amount)])
       <==> !Clobbers(ring, Newest(log), epoch, amount)
  {
    var log', ring' := log + [Entry(epoch, amount)], Bump(ring, epoch, amount);
    forall now | now >= Newest(log')
      ensures VisibleSum(ring', now) == WindowSum(log', now) - if amount == 0 then 0 else LostTo(ring, epoch, now)
    {
      AppendToLog(log, Entry(epoch, amount), now);
      assert VisibleSum(ring, now) == WindowSum(log, now);
      if amount != 0 {
        IncrementAccount(ring, Newest(log), epoch, amount, now);
      }
    }
    AppendToLog(log, Entry(epoch, amount), 0);
    StoreStaysShaped(ring, Newest(log), epoch, BucketAt(ring, epoch).value + amount);
    if Clobbers(ring, Newest(log), epoch, amount) {
      assert VisibleSum(ring', Newest(log')) != WindowSum(log', Newest(log'));
    }
  }

  /** A maximum update at `epoch` evicts a younger bucket that readers can still see, and
      that is higher than everything they see as long as they can see it. */
  predicate ClobbersMax(ring: Ring, newest: nat, epoch: nat) {
    var evicted := ring[Slot(epoch)];
    && evicted.key > epoch && evicted.key >= newest - 10
    && evicted.value > VisibleMax(ring[Slot(epoch) := ZERO], evicted.key + 10)
  }

  lemma {:induction false} VisibleMaxFades(buckets: seq<Bucket>, now: int, later: int)
    requires now <= later
    ensures VisibleMax(buckets, now) >= VisibleMax(buckets, later)
  {
    if buckets != [] {
      VisibleMaxNonnegative(buckets[..|buckets| - 1], now);
      VisibleMaxFades(buckets[..|buckets| - 1], now, later);
    }
  }

  /** A bucket too old to be seen is as good as an empty one. */
  lemma UnseenShowsNothing(ring: Ring, slot: nat, b: Bucket, now: int)
    requires slot < SIZE && Visible(b, now) == 0
    ensures VisibleMax(ring[slot := b], now) == VisibleMax(ring[slot := ZERO], now)
  {
    MaxAfterStore(ring[slot := ZERO], slot, b, now);
    VisibleMaxNonnegative(ring[slot := ZERO], now);
    assert ring[slot := ZERO][slot := b] == ring[slot := b];
  }

  /** What is lost to a late maximum update matters exactly if the update clobbers. */
  lemma LostMattersIff(ring: Ring, newest: nat, epoch: nat, n: int)
    requires Shaped(ring, newest)
    ensures ClobbersMax(ring, newest, epoch)
       <==> exists now :: now >= Max(newest, epoch) && LostTo(ring, epoch, now) > VisibleMax(Raise(ring, epoch, n), now)
  {
    var slot, ring', evicted := Slot(epoch), Raise(ring, epoch, n), ring[Slot(epoch)];
    EvictedIsApart(ring, newest, epoch);
    if evicted.key > epoch {
      forall now | now >= newest ensures VisibleMax(ring', now) == VisibleMax(ring[slot := ZERO], now) {
        UnseenShowsNothing(ring, slot, ring'[slot], now);
      }
    }
    if ClobbersMax(ring, newest, epoch) {
      assert LostTo(ring, epoch, evicted.key + 10) > VisibleMax(ring', evicted.key + 10);
    }
    if now :| now >= Max(newest, epoch) && LostTo(ring, epoch, now) > VisibleMax(ring', now) {
      VisibleMaxNonnegative(ring', now);
      VisibleMaxFades(ring[slot := ZERO], now, evicted.key + 10);
    }
  }

  /** The same for one maximum update. */
  lemma RaiseExact(ring: Ring, log: seq<Entry>, epoch: nat, n: int)
    requires Shaped(ring, Newest(log)) && Nonnegative(ring) && MaxAgrees(ring, log)
    ensures MaxAgrees(Raise(ring, epoch, n), log + [Entry(epoch, n)]) <==> !ClobbersMax(ring, Newest(log), epoch)
  {
    var log', ring' := log + [Entry(epoch, n)], Raise(ring, epoch, n);
    AppendToLog(log, Entry(epoch, n), 0);
    forall now | now >= Newest(log')
      ensures VisibleMax(ring', now) == WindowMax(log', now) <==> LostTo(ring, epoch, now) <= VisibleMax(ring', now)
    {
      AppendToLog(log, Entry(epoch, n), now);
      assert VisibleMax(ring, now) == WindowMax(log, now);
      RaiseAccount(ring, Newest(log), epoch, n, now);
    }
    LostMattersIff(ring, Newest(log), epoch, n);
  }

  lemma {:induction false} VisibleMaxNonnegative(buckets: seq<Bucket>, now: int)
    ensures VisibleMax(buckets, now) >= 0
  {
    if buckets != [] {
      VisibleMaxNonnegative(buckets[..|buckets| - 1], now);
    }
  }

  lemma EmptyAgrees()
    ensures Shaped(EMPTY, 0) && SumAgrees(EMPTY, []) && MaxAgrees(EMPTY, [])
  {
    forall now: int ensures VisibleSum(EMPTY, now) == 0 == VisibleMax(EMPTY, now) {
      ZerosShowNothing(EMPTY, now);
    }
  }

  lemma {:induction false} ZerosShowNothing(buckets: seq<Bucket>, now: int)
    requires forall i :: 0 <= i < |buckets| ==> buckets[i] == ZERO
    ensures VisibleSum(buckets, now) == 0 == VisibleMax(buckets, now)
  {
    if buckets != [] {
      ZerosShowNothing(buckets[..|buckets| - 1], now);
    }
  }

  // ---------- whole runs ----------

  datatype Op = Write(epoch: nat, amount: int) | Reset

  /** What was written since the last reset. */
  function Log(ops: seq<Op>): seq<Entry> {
    if ops == [] || ops[|ops| - 1].Reset? then []
    else Log(ops[..|ops| - 1]) + [Entry(ops[|ops| - 1].epoch, ops[|ops| - 1].amount)]
  }

  function SumRing(ops: seq<Op>): Ring {
    if ops == [] || ops[|ops| - 1].Reset? then EMPTY
    else Bump(SumRing(ops[..|ops| - 1]), ops[|ops| - 1].epoch, ops[|ops| - 1].amount)
  }

  function MaxRing(ops: seq<Op>): Ring {
    if ops == [] || ops[|ops| - 1].Reset? then EMPTY
    else Raise(MaxRing(ops[..|ops| - 1]), ops[|ops| - 1].epoch, ops[|ops| - 1].amount)
  }

  /** Operation `k` of the run clobbers. */
  predicate ClobbersAt(ops: seq<Op>, k: nat)
    requires k < |ops|
  {
    ops[k].Write? && Clobbers(SumRing(ops[..k]), Newest(Log(ops[..k])), ops[k].epoch, ops[k].amount)
  }

  predicate ClobbersMaxAt(ops: seq<Op>, k: nat)
    requires k < |ops|
  {
    ops[k].Write? && ClobbersMax(MaxRing(ops[..k]), Newest(Log(ops[..k])), ops[k].epoch)
  }

  /** The sum is right, for every reader, after `k` operations. */
  ghost predicate SumRightAt(ops: seq<Op>, k: nat)
    requires k <= |ops|
  {
    SumAgrees(SumRing(ops[..k]), Log(ops[..k]))
  }

  ghost predicate MaxRightAt(ops: seq<Op>, k: nat)
    requires k <= |ops|
  {
    MaxAgrees(MaxRing(ops[..k]), Log(ops[..k]))
  }

  /** No writer is more than ten seconds behind the newest write since the last reset. */
  predicate Timely(ops: seq<Op>) {
    ops == [] ||
    var init := ops[..|ops| - 1];
    Timely(init) && (ops[|ops| - 1].Write? ==> ops[|ops| - 1].epoch >= Newest(Log(init)) - 10)
  }

  lemma AppendWrite(ops: seq<Op>, epoch: nat, amount: int)
    ensures SumRing(ops + [Write(epoch, amount)]) == Bump(SumRing(ops), epoch, amount)
    ensures MaxRing(ops + [Write(epoch, amount)]) == Raise(MaxRing(ops), epoch, amount)
    ensures Log(ops + [Write(epoch, amount)]) == Log(ops) + [Entry(epoch, amount)]
  {
    assert (ops + [Write(epoch, amount)])[..|ops|] == ops;
  }

  lemma StepStaysShaped(ring: Ring, log: seq<Entry>, epoch: nat, amount: int)
    requires Shaped(ring, Newest(log))
    ensures Shaped(Bump(ring, epoch, amount), Newest(log + [Entry(epoch, amount)]))
    ensures Shaped(Raise(ring, epoch, amount), Newest(log + [Entry(epoch, amount)]))
  {
    AppendToLog(log, Entry(epoch, amount), 0);
    StoreStaysShaped(ring, Newest(log), epoch, BucketAt(ring, epoch).value + amount);
    StoreStaysShaped(ring, Newest(log), epoch, Max(BucketAt(ring, epoch).value, amount));
  }

  lemma {:induction false} RunsAreShaped(ops: seq<Op>)
    ensures Shaped(SumRing(ops), Newest(Log(ops)))
    ensures Shaped(MaxRing(ops), Newest(Log(ops))) && Nonnegative(MaxRing(ops))
  {
    if ops == [] || ops[|ops| - 1].Reset? {
      EmptyAgrees();
    } else {
      var init, op := ops[..|ops| - 1], ops[|ops| - 1];
      RunsAreShaped(init);
      StepStaysShaped(SumRing(init), Log(init), op.epoch, op.amount);
      StepStaysShaped(MaxRing(init), Log(init), op.epoch, op.amount);
    }
  }

  lemma StepIff(ops: seq<Op>, k: nat)
    requires k < |ops|
    ensures SumRightAt(ops, k) ==> (SumRightAt(ops, k + 1) <==> !ClobbersAt(ops, k))
    ensures MaxRightAt(ops, k) ==> (MaxRightAt(ops, k + 1) <==> !ClobbersMaxAt(ops, k))
  {
    var init, op := ops[..k], ops[k];
    assert ops[..k + 1] == init + [op];
    RunsAreShaped(init);
    if op.Reset? {
      EmptyAgrees();
    } else {
      AppendWrite(init, op.epoch, op.amount);
      if SumRightAt(ops, k) {
        IncrementExact(SumRing(init), Log(init), op.epoch, op.amount);
      }
      if MaxRightAt(ops, k) {
        RaiseExact(MaxRing(init), Log(init), op.epoch, op.amount);
      }
    }
  }

  lemma {:induction false} SumRightThrough(ops: seq<Op>, n: nat)
    requires n <= |ops|
    ensures (forall k :: 0 <= k <= n ==> SumRightAt(ops, k)) <==> (forall k :: 0 <= k < n ==> !ClobbersAt(ops, k))
  {
    if n == 0 {
      assert ops[..0] == [];
      EmptyAgrees();
    } else {
      SumRightThrough(ops, n - 1);
      StepIff(ops, n - 1);
    }
  }

  lemma {:induction false} MaxRightThrough(ops: seq<Op>, n: nat)
    requires n <= |ops|
    ensures (forall k :: 0 <= k <= n ==> MaxRightAt(ops, k)) <==> (forall k :: 0 <= k < n ==> !ClobbersMaxAt(ops, k))
  {
    if n == 0 {
      assert ops[..0] == [];
      EmptyAgrees();
    } else {
      MaxRightThrough(ops, n - 1);
      StepIff(ops, n - 1);
    }
  }

  /** For every run at all, however late its writers: the sum is right after each
      operation if and only if no operation clobbers. */
  lemma SumRefinesLogIff(ops: seq<Op>)
    ensures (forall k :: 0 <= k <= |ops| ==> SumRightAt(ops, k)) <==> (forall k :: 0 <= k < |ops| ==> !ClobbersAt(ops, k))
  {
    SumRightThrough(ops, |ops|);
  }

  /** And so is the maximum, with what clobbering means for a maximum. */
  lemma MaxRefinesLogIff(ops: seq<Op>)
    ensures (forall k :: 0 <= k <= |ops| ==> MaxRightAt(ops, k)) <==> (forall k :: 0 <= k < |ops| ==> !ClobbersMaxAt(ops, k))
  {
    MaxRightThrough(ops, |ops|);
  }

  // ---------- what late writers cost ----------

  /** What a reader at `now` misses of the sum, because of all late writes since the last
      reset. */
  function LostSum(ops: seq<Op>, now: int): int {
    if ops == [] || ops[|ops| - 1].Reset? then 0
    else
      var init, op := ops[..|ops| - 1], ops[|ops| - 1];
      LostSum(init, now) + if op.amount == 0 then 0 else LostTo(SumRing(init), op.epoch, now)
  }

  function LostMax(ops: seq<Op>, now: int): int {
    if ops == [] || ops[|ops| - 1].Reset? then 0
    else
      var init, op := ops[..|ops| - 1], ops[|ops| - 1];
      Max(LostMax(init, now), LostTo(MaxRing(init), op.epoch, now))
  }

  /** The books of every run and every reader: what the ring shows and what late writers
      evicted make up the log, for the sum and for the maximum. */
  lemma {:induction false} ShownAndLostIsLogged(ops: seq<Op>, now: int)
    requires now >= Newest(Log(ops))
    ensures VisibleSum(SumRing(ops), now) + LostSum(ops, now) == WindowSum(Log(ops), now)
    ensures Max(VisibleMax(MaxRing(ops), now), LostMax(ops, now)) == WindowMax(Log(ops), now)
  {
    if ops == [] || ops[|ops| - 1].Reset? {
      ZerosShowNothing(EMPTY, now);
    } else {
      var init, op := ops[..|ops| - 1], ops[|ops| - 1];
      AppendToLog(Log(init), Entry(op.epoch, op.amount), now);
      ShownAndLostIsLogged(init, now);
      RunsAreShaped(init);
      if op.amount != 0 {
        IncrementAccount(SumRing(init), Newest(Log(init)), op.epoch, op.amount, now);
      }
      RaiseAccount(MaxRing(init), Newest(Log(init)), op.epoch, op.amount, now);
    }
  }

  lemma {:induction false} ExpiredIsNotLost(ops: seq<Op>, now: int)
    requires now > Newest(Log(ops)) + 10
    ensures LostSum(ops, now) == 0 == LostMax(ops, now)
  {
    if ops != [] && ops[|ops| - 1].Write? {
      var init, op := ops[..|ops| - 1], ops[|ops| - 1];
      AppendToLog(Log(init), Entry(op.epoch, op.amount), now);
      ExpiredIsNotLost(init, now);
      RunsAreShaped(init);
    }
  }

  /** The writers from operation `k` on are at most ten seconds late. */
  predicate TimelyFrom(ops: seq<Op>, k: nat) {
    forall j :: k <= j < |ops| && ops[j].Write? ==> ops[j].epoch >= Newest(Log(ops[..j])) - 10
  }

  lemma {:induction false} TimelyLosesNothing(ops: seq<Op>, k: nat, now: int)
    requires k <= |ops| && TimelyFrom(ops, k) && LostSum(ops[..k], now) == 0 == LostMax(ops[..k], now)
    ensures LostSum(ops, now) == 0 == LostMax(ops, now)
  {
    if |ops| > k {
      var init, op := ops[..|ops| - 1], ops[|ops| - 1];
      assert ops[..k] == init[..k];
      forall j | k <= j < |init| && init[j].Write? ensures init[j].epoch >= Newest(Log(init[..j])) - 10 {
        assert init[..j] == ops[..j];
      }
      TimelyLosesNothing(init, k, now);
      if op.Write? {
        RunsAreShaped(init);
        TimelyEvictsOnlyExpired(SumRing(init), Newest(Log(init)), op.epoch);
        TimelyEvictsOnlyExpired(MaxRing(init), Newest(Log(init)), op.epoch);
      }
    } else {
      assert ops[..k] == ops;
    }
  }

  /** The ring heals: once the writers are timely again, and what was newest when they were
      not has left the window, sum and maximum are exact again, whatever was evicted. */
  lemma RingHeals(ops: seq<Op>, k: nat, now: int)
    requires k <= |ops| && TimelyFrom(ops, k)
    requires now >= Newest(Log(ops)) && now > Newest(Log(ops[..k])) + 10
    ensures VisibleSum(SumRing(ops), now) == WindowSum(Log(ops), now)
    ensures VisibleMax(MaxRing(ops), now) == WindowMax(Log(ops), now)
  {
    ExpiredIsNotLost(ops[..k], now);
    TimelyLosesNothing(ops, k, now);
    ShownAndLostIsLogged(ops, now);
    VisibleMaxNonnegative(MaxRing(ops), now);
  }

  lemma {:induction false} TimelyThroughout(ops: seq<Op>)
    requires Timely(ops)
    ensures TimelyFrom(ops, 0)
  {
    if ops != [] {
      var init := ops[..|ops| - 1];
      TimelyThroughout(init);
      forall j | 0 <= j < |ops| && ops[j].Write? ensures ops[j].epoch >= Newest(Log(ops[..j])) - 10 {
        assert j < |init| ==> init[j] == ops[j] && init[..j] == ops[..j];
      }
    }
  }

  lemma TimelyShowsAll(ops: seq<Op>, now: int)
    requires Timely(ops) && now >= Newest(Log(ops))
    ensures VisibleSum(SumRing(ops), now) == WindowSum(Log(ops), now)
    ensures VisibleMax(MaxRing(ops), now) == WindowMax(Log(ops), now)
  {
    TimelyThroughout(ops);
    TimelyLosesNothing(ops, 0, now);
    ShownAndLostIsLogged(ops, now);
    VisibleMaxNonnegative(MaxRing(ops), now);
  }

  /** The rolling sum: with writers at most ten seconds late, every reader not behind the
      newest write sees exactly the amounts of the last ten seconds since the last reset. */
  lemma SumRefinesLog(ops: seq<Op>, now: int)
    requires Timely(ops) && now >= Newest(Log(ops))
    ensures VisibleSum(SumRing(ops), now) == WindowSum(Log(ops), now)
  {
    TimelyShowsAll(ops, now);
  }

  /** The rolling maximum, on the same terms. */
  lemma MaxRefinesLog(ops: seq<Op>, now: int)
    requires Timely(ops) && now >= Newest(Log(ops))
    ensures VisibleMax(MaxRing(ops), now) == WindowMax(Log(ops), now)
  {
    TimelyShowsAll(ops, now);
  }

  /** Eleven seconds late is already too late: the second write wipes the first. */
  lemma LateWriterLosesAnIncrement()
    ensures var ops := [Write(11, 1), Write(0, 1)];
            VisibleSum(SumRing(ops), 11) == 0 && WindowSum(Log(ops), 11) == 1
  {
    var ops := [Write(11, 1), Write(0, 1)];
    var one := Bump(EMPTY, 11, 1);
    assert ops[..1] == [Write(11, 1)] && ops[..1][..0] == [];
    assert SumRing(ops[..1]) == one;
    var two := Bump(one, 0, 1);
    assert SumRing(ops) == two;
    assert Log(ops[..1]) == [Entry(11, 1)];
    assert Log(ops) == [Entry(11, 1), Entry(0, 1)];
    assert Log(ops)[..1] == [Entry(11, 1)];
    EmptyAgrees();
    ZerosShowNothing(EMPTY, 11);
    SumAfterStore(EMPTY, 0, Bucket(11, 1), 11);
    SumAfterStore(one, 0, Bucket(0, 1), 11);
  }
}
