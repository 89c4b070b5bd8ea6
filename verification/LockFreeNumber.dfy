/** `rolling.Number` under any number of concurrent writers.

    Each call is a little machine over a shared heap of buckets: it loads the pointer in
    its slot, swaps in a new bucket if the one it saw is of another second, loads again if
    the swap failed, and then works on the bucket it ended up with.  A step of the system
    is one such atomic action of one call, so a run is any interleaving.

    The calls of one ring are either all increments or all maximum updates. */
module LockFreeNumber {
  import opened RollingNumber

  datatype Kind = Adding | Raising

  /** Where a call is: about to load its slot, to swap out the bucket `seen` there, to
      work on the bucket `target` (add to it, or load its value), to raise its value
      from `v`, or back. */
  datatype PC = Load | Cas(seen: nat) | Use(target: nat) | Swap(target: nat, v: int) | Done

  datatype Call = Call(epoch: nat, amount: int, pc: PC, loads: nat)

  /** `heap[a]` is the bucket at address `a` and `slots` holds addresses.  `newest` is the
      largest epoch any call was made with. */
  datatype State = State(kind: Kind, heap: seq<Bucket>, slots: seq<nat>, calls: seq<Call>, newest: nat)

  datatype Step = Start(epoch: nat, amount: int) | Advance(id: nat)

  const SLOTS: seq<nat> := [0, 1, 2, 3, 4, 5, 6, 7, 8, 9, 10]

  function Initial(kind: Kind): State { State(kind, EMPTY, SLOTS, [], 0) }

  predicate Enabled(s: State, step: Step) { step.Advance? ==> step.id < |s.calls| }

  predicate WellFormed(s: State) {
    && |s.slots| == SIZE
    && (forall i :: 0 <= i < SIZE ==> s.slots[i] < |s.heap|)
    && (forall c :: c in s.calls && c.pc.Cas? ==> c.pc.seen < |s.heap|)
    && (forall c :: c in s.calls && (c.pc.Use? || c.pc.Swap?) ==> c.pc.target < |s.heap|)
  }

  function WithCall(s: State, id: nat, c: Call): State
    requires id < |s.calls|
  {
    s.(calls := s.calls[id := c])
  }

  function LoadSlot(s: State, id: nat): State
    requires WellFormed(s) && id < |s.calls|
  {
    var c := s.calls[id];
    var a := s.slots[Slot(c.epoch)];
    var pc := if s.heap[a].key == c.epoch then Use(a) else Cas(a);
    WithCall(s, id, c.(pc := pc, loads := c.loads + 1))
  }

  function SwapBucket(s: State, id: nat): State
    requires WellFormed(s) && id < |s.calls| && s.calls[id].pc.Cas?
  {
    var c := s.calls[id];
    if s.slots[Slot(c.epoch)] == c.pc.seen then
      WithCall(s, id, c.(pc := Use(|s.heap|)))
        .(heap := s.heap + [Bucket(c.epoch, 0)], slots := s.slots[Slot(c.epoch) := |s.heap|])
    else WithCall(s, id, c.(pc := Load))
  }

  function UseBucket(s: State, id: nat): State
    requires WellFormed(s) && id < |s.calls| && s.calls[id].pc.Use?
  {
    var c := s.calls[id];
    var a := c.pc.target;
    var b := s.heap[a];
    if s.kind.Adding? then
      WithCall(s, id, c.(pc := Done)).(heap := s.heap[a := b.(value := b.value + c.amount)])
    else if c.amount <= b.value then WithCall(s, id, c.(pc := Done))
    else WithCall(s, id, c.(pc := Swap(a, b.value)))
  }

  function SwapValue(s: State, id: nat): State
    requires WellFormed(s) && id < |s.calls| && s.calls[id].pc.Swap?
  {
    var c := s.calls[id];
    var a := c.pc.target;
    var b := s.heap[a];
    if b.value == c.pc.v then
      WithCall(s, id, c.(pc := Done)).(heap := s.heap[a := b.(value := c.amount)])
    else WithCall(s, id, c.(pc := Use(a)))
  }

  function Next(s: State, step: Step): State
    requires WellFormed(s) && Enabled(s, step)
  {
    match step
    case Start(epoch, amount) =>
      var pc := if s.kind.Adding? && amount == 0 then Done else Load;
      s.(calls := s.calls + [Call(epoch, amount, pc, 0)], newest := Max(s.newest, epoch))
    case Advance(id) =>
      match s.calls[id].pc
      case Load => LoadSlot(s, id)
      case Cas(_) => SwapBucket(s, id)
      case Use(_) => UseBucket(s, id)
      case Swap(_, _) => SwapValue(s, id)
      case Done => s
  }

  // ---------- what a reader sees, and what it should see ----------

  function RingOf(heap: seq<Bucket>, slots: seq<nat>): (ring: seq<Bucket>)
    requires forall i :: 0 <= i < |slots| ==> slots[i] < |heap|
    ensures |ring| == |slots|
    ensures forall i :: 0 <= i < |slots| ==> ring[i] == heap[slots[i]]
  {
    if slots == [] then []
    else RingOf(heap, slots[..|slots| - 1]) + [heap[slots[|slots| - 1]]]
  }

  /** The call has done its work on a bucket, and counts at `now`. */
  predicate Counts(c: Call, now: int) { c.pc.Done? && InWindow(c.epoch, now) }

  function DoneSum(calls: seq<Call>, now: int): int {
    if calls == [] then 0
    else
      var last := calls[|calls| - 1];
      DoneSum(calls[..|calls| - 1], now) + if Counts(last, now) then last.amount else 0
  }

  function DoneMax(calls: seq<Call>, now: int): int {
    if calls == [] then 0
    else
      var last := calls[|calls| - 1];
      Max(DoneMax(calls[..|calls| - 1], now), if Counts(last, now) then last.amount else 0)
  }

  ghost predicate Agrees(s: State)
    requires WellFormed(s)
  {
    forall now {:trigger VisibleSum(RingOf(s.heap, s.slots), now)} {:trigger VisibleMax(RingOf(s.heap, s.slots), now)}
        {:trigger DoneSum(s.calls, now)} {:trigger DoneMax(s.calls, now)} ::
      now >= s.newest ==>
        if s.kind.Adding? then VisibleSum(RingOf(s.heap, s.slots), now) == DoneSum(s.calls, now)
        else VisibleMax(RingOf(s.heap, s.slots), now) == DoneMax(s.calls, now)
  }

  /** No call that still has to settle on a bucket is over ten seconds behind. */
  predicate Timely(s: State) {
    forall c :: c in s.calls && (c.pc.Load? || c.pc.Cas?) ==> c.epoch >= s.newest - 10
  }

  // ---------- the invariant ----------

  predicate CallOk(s: State, c: Call)
    requires WellFormed(s) && c in s.calls
  {
    var home := s.slots[Slot(c.epoch)];
    && c.epoch <= s.newest
    && match c.pc
       case Load => c.loads <= 1 && (c.loads == 1 ==> s.heap[home].key == c.epoch)
       case Cas(seen) => c.loads == 1 && s.heap[seen].key != c.epoch && (home != seen ==> s.heap[home].key == c.epoch)
       case Use(a) => c.loads <= 2 && Settled(s, c.epoch, a)
       case Swap(a, v) => c.loads <= 2 && Settled(s, c.epoch, a) && v < c.amount && s.kind.Raising?
       case Done => c.loads <= 2
  }

  /** `a` is a bucket of second `epoch`: the one readers see, or one evicted after that
      second left every window. */
  predicate Settled(s: State, epoch: nat, a: nat)
    requires WellFormed(s) && a < |s.heap|
  {
    && s.heap[a].key == epoch
    && (forall i :: 0 <= i < SIZE && i != Slot(epoch) ==> s.slots[i] != a)
    && (s.slots[Slot(epoch)] != a ==> epoch + SIZE <= s.newest)
  }

  ghost predicate Inv(s: State) {
    && WellFormed(s)
    && Shaped(RingOf(s.heap, s.slots), s.newest)
    && (forall i, j :: 0 <= i < j < SIZE ==> s.slots[i] != s.slots[j])
    && (forall c :: c in s.calls ==> CallOk(s, c))
    && (s.kind.Raising? ==> forall i :: 0 <= i < SIZE ==> s.heap[s.slots[i]].value >= 0)
    && Agrees(s)
  }

  lemma InitialInv(kind: Kind)
    ensures Inv(Initial(kind))
  {
    var s := Initial(kind);
    assert forall i :: 0 <= i < SIZE ==> SLOTS[i] == i && EMPTY[i] == ZERO;
    var ring := RingOf(s.heap, s.slots);
    assert forall i :: 0 <= i < SIZE ==> ring[i] == ZERO;
    forall now: int ensures VisibleSum(ring, now) == 0 == VisibleMax(ring, now) {
      ZerosShowNothing(ring, now);
    }
  }

  // ---------- how the done calls add up ----------

  lemma {:induction false} DoneAfterUpdate(calls: seq<Call>, id: nat, c: Call, now: int)
    requires id < |calls| && !calls[id].pc.Done?
    ensures DoneSum(calls[id := c], now) == DoneSum(calls, now) + if Counts(c, now) then c.amount else 0
    ensures DoneMax(calls[id := c], now) == Max(DoneMax(calls, now), if Counts(c, now) then c.amount else 0)
  {
    var init := calls[..|calls| - 1];
    DoneMaxNonnegative(calls, now);
    DoneMaxNonnegative(init, now);
    if id < |init| {
      DoneAfterUpdate(init, id, c, now);
      assert calls[id := c][..|calls| - 1] == init[id := c];
    } else {
      assert calls[id := c][..|calls| - 1] == init;
    }
  }

  lemma {:induction false} DoneMaxNonnegative(calls: seq<Call>, now: int)
    ensures DoneMax(calls, now) >= 0
  {
    if calls != [] {
      DoneMaxNonnegative(calls[..|calls| - 1], now);
    }
  }

  // ---------- the steps keep the invariant ----------

  lemma StartKeepsInv(s: State, epoch: nat, amount: int)
    requires Inv(s)
    ensures Inv(Next(s, Start(epoch, amount)))
  {
  }

  /** A step that leaves the call unfinished and every bucket's visible value alone. */
  lemma QuietCallUpdate(s: State, id: nat, c: Call)
    requires Inv(s) && id < |s.calls| && !s.calls[id].pc.Done? && !c.pc.Done?
    requires var s' := WithCall(s, id, c); WellFormed(s') && s'.calls[id] == c && CallOk(s', c)
    ensures Inv(WithCall(s, id, c))
  {
    var s' := WithCall(s, id, c);
    forall d | d in s'.calls ensures CallOk(s', d) {
      assert d in s.calls ==> CallOk(s, d);
    }
    forall now | now >= s'.newest ensures
      if s.kind.Adding? then VisibleSum(RingOf(s.heap, s.slots), now) == DoneSum(s'.calls, now)
      else VisibleMax(RingOf(s.heap, s.slots), now) == DoneMax(s'.calls, now)
    {
      DoneAfterUpdate(s.calls, id, c, now);
      DoneMaxNonnegative(s.calls, now);
      assert DoneSum(s.calls, now) == DoneSum(s'.calls, now);
    }
  }

  lemma LoadKeepsInv(s: State, id: nat)
    requires Inv(s) && Timely(s) && id < |s.calls| && s.calls[id].pc.Load?
    ensures Inv(LoadSlot(s, id))
  {
    assert CallOk(s, s.calls[id]);
    var c := LoadSlot(s, id).calls[id];
    var s' := WithCall(s, id, c);
    assert s' == LoadSlot(s, id);
    forall d | d in s'.calls ensures d in s.calls || d == c {}
    QuietCallUpdate(s, id, c);
  }

  /** The heart of the matter: a bucket is only ever evicted after it has left every
      window, so calls still holding it do no harm. */
  lemma InstallKeepsCall(s: State, id: nat, d: Call)
    requires Inv(s) && Timely(s) && id < |s.calls| && s.calls[id].pc.Cas?
    requires s.slots[Slot(s.calls[id].epoch)] == s.calls[id].pc.seen
    requires d in s.calls && d in SwapBucket(s, id).calls
    ensures WellFormed(SwapBucket(s, id)) && CallOk(SwapBucket(s, id), d)
  {
    var c, slot := s.calls[id], Slot(s.calls[id].epoch);
    assert CallOk(s, c) && CallOk(s, d);
    assert s.heap <= SwapBucket(s, id).heap;
    if Slot(d.epoch) == slot && d.epoch < c.epoch {
      SameSlotApart(d.epoch, c.epoch);
    } else if Slot(d.epoch) == slot && d.epoch > c.epoch {
      SameSlotApart(c.epoch, d.epoch);
    }
  }

  lemma InstallKeepsAgreement(s: State, id: nat)
    requires Inv(s) && Timely(s) && id < |s.calls| && s.calls[id].pc.Cas?
    requires s.slots[Slot(s.calls[id].epoch)] == s.calls[id].pc.seen
    ensures var s' := SwapBucket(s, id); var slot := Slot(s.calls[id].epoch);
            && WellFormed(s') && Agrees(s')
            && RingOf(s'.heap, s'.slots) == RingOf(s.heap, s.slots)[slot := Bucket(s.calls[id].epoch, 0)]
  {
    var c, s' := s.calls[id], SwapBucket(s, id);
    var slot, b, ring := Slot(c.epoch), Bucket(c.epoch, 0), RingOf(s.heap, s.slots);
    assert CallOk(s, c);
    TimelyEvictsOnlyExpired(ring, s.newest, c.epoch);
    var ring' := RingOf(s'.heap, s'.slots);
    assert ring' == ring[slot := b];
    forall now | now >= s'.newest ensures
      if s.kind.Adding? then VisibleSum(ring', now) == DoneSum(s'.calls, now)
      else VisibleMax(ring', now) == DoneMax(s'.calls, now)
    {
      assert Visible(ring[slot], now) == 0 == Visible(b, now);
      SumAfterStore(ring, slot, b, now);
      MaxAfterStore(ring, slot, b, now);
      VisibleMaxNonnegative(ring, now);
      DoneAfterUpdate(s.calls, id, s'.calls[id], now);
      DoneMaxNonnegative(s.calls, now);
      assert DoneSum(s.calls, now) == DoneSum(s'.calls, now);
    }
  }

  lemma InstallKeepsInv(s: State, id: nat)
    requires Inv(s) && Timely(s) && id < |s.calls| && s.calls[id].pc.Cas?
    requires s.slots[Slot(s.calls[id].epoch)] == s.calls[id].pc.seen
    ensures Inv(SwapBucket(s, id))
  {
    var s' := SwapBucket(s, id);
    assert CallOk(s, s.calls[id]);
    InstallKeepsAgreement(s, id);
    forall d | d in s'.calls ensures CallOk(s', d) {
      if d in s.calls {
        InstallKeepsCall(s, id, d);
      }
    }
  }

  lemma RetryKeepsInv(s: State, id: nat)
    requires Inv(s) && Timely(s) && id < |s.calls| && s.calls[id].pc.Cas?
    requires s.slots[Slot(s.calls[id].epoch)] != s.calls[id].pc.seen
    ensures Inv(SwapBucket(s, id))
  {
    assert CallOk(s, s.calls[id]);
    var c := SwapBucket(s, id).calls[id];
    var s' := WithCall(s, id, c);
    forall d | d in s'.calls ensures d in s.calls || d == c {}
    QuietCallUpdate(s, id, c);
  }

  /** The state after call `id` took the bucket it holds to `value` and returned. */
  function Finish(s: State, id: nat, value: int): State
    requires WellFormed(s) && id < |s.calls| && (s.calls[id].pc.Use? || s.calls[id].pc.Swap?)
  {
    var c := s.calls[id];
    WithCall(s, id, c.(pc := Done)).(heap := s.heap[c.pc.target := s.heap[c.pc.target].(value := value)])
  }

  predicate FinishesWith(s: State, id: nat, value: int)
    requires WellFormed(s) && id < |s.calls|
  {
    var c := s.calls[id];
    && (c.pc.Use? || c.pc.Swap?)
    && value == if s.kind.Adding? then s.heap[c.pc.target].value + c.amount
                else Max(s.heap[c.pc.target].value, c.amount)
  }

  lemma FinishChangesRing(s: State, id: nat, value: int)
    requires Inv(s) && id < |s.calls| && FinishesWith(s, id, value)
    ensures var c, s' := s.calls[id], Finish(s, id, value);
            var ring, slot := RingOf(s.heap, s.slots), Slot(c.epoch);
            && WellFormed(s')
            && RingOf(s'.heap, s'.slots)
            == if s.slots[slot] == c.pc.target then ring[slot := ring[slot].(value := value)] else ring
  {
    var c, s' := s.calls[id], Finish(s, id, value);
    var ring, ring', slot := RingOf(s.heap, s.slots), RingOf(s'.heap, s'.slots), Slot(c.epoch);
    assert CallOk(s, c);
    if s.slots[slot] == c.pc.target {
      assert ring' == ring[slot := ring[slot].(value := value)];
    } else {
      assert ring' == ring;
    }
  }

  lemma FinishKeepsAgreement(s: State, id: nat, value: int)
    requires Inv(s) && id < |s.calls| && FinishesWith(s, id, value)
    ensures WellFormed(Finish(s, id, value)) && Agrees(Finish(s, id, value))
  {
    var c, s' := s.calls[id], Finish(s, id, value);
    var slot, ring := Slot(c.epoch), RingOf(s.heap, s.slots);
    FinishChangesRing(s, id, value);
    assert CallOk(s, c);
    var ring' := RingOf(s'.heap, s'.slots);
    forall now | now >= s'.newest ensures
      if s.kind.Adding? then VisibleSum(ring', now) == DoneSum(s'.calls, now)
      else VisibleMax(ring', now) == DoneMax(s'.calls, now)
    {
      DoneAfterUpdate(s.calls, id, s'.calls[id], now);
      DoneMaxNonnegative(s.calls, now);
      assert if s.kind.Adding? then VisibleSum(ring, now) == DoneSum(s.calls, now)
             else VisibleMax(ring, now) == DoneMax(s.calls, now);
      if s.slots[slot] == c.pc.target {
        if s.kind.Adding? {
          SumAfterStore(ring, slot, ring'[slot], now);
        } else {
          MaxAfterStore(ring, slot, ring'[slot], now);
        }
      }
    }
  }

  lemma FinishKeepsCall(s: State, id: nat, value: int, d: Call)
    requires Inv(s) && id < |s.calls| && FinishesWith(s, id, value)
    requires d in Finish(s, id, value).calls
    ensures WellFormed(Finish(s, id, value)) && CallOk(Finish(s, id, value), d)
  {
    var c, s' := s.calls[id], Finish(s, id, value);
    assert c in s.calls && CallOk(s, c);
    FinishChangesRing(s, id, value);
    assert d in s.calls || d == s'.calls[id];
    assert d in s.calls ==> CallOk(s, d);
    assert forall a :: 0 <= a < |s.heap| ==> s'.heap[a].key == s.heap[a].key;
  }

  lemma FinishKeepsInv(s: State, id: nat, value: int)
    requires Inv(s) && id < |s.calls| && FinishesWith(s, id, value)
    ensures Inv(Finish(s, id, value))
  {
    var s' := Finish(s, id, value);
    FinishChangesRing(s, id, value);
    FinishKeepsAgreement(s, id, value);
    assert s.calls[id] in s.calls && CallOk(s, s.calls[id]);
    forall d | d in s'.calls ensures CallOk(s', d) {
      FinishKeepsCall(s, id, value, d);
    }
  }

  lemma QuietStep(s: State, id: nat, c: Call)
    requires Inv(s) && id < |s.calls|
    requires var d := s.calls[id]; (d.pc.Use? || d.pc.Swap?) && (c.pc.Use? || (c.pc.Swap? && c.pc.v < c.amount && s.kind.Raising?))
                                   && c == d.(pc := c.pc) && c.pc.target == d.pc.target
    ensures Inv(WithCall(s, id, c))
  {
    assert CallOk(s, s.calls[id]);
    var s' := WithCall(s, id, c);
    forall d | d in s'.calls ensures d in s.calls || d == c {}
    QuietCallUpdate(s, id, c);
  }

  /** A maximum update that finds its bucket high enough leaves the heap as it is. */
  lemma UseReturns(s: State, id: nat)
    requires Inv(s) && id < |s.calls| && s.calls[id].pc.Use? && s.kind.Raising?
    requires s.calls[id].amount <= s.heap[s.calls[id].pc.target].value
    ensures Inv(UseBucket(s, id))
  {
    var a := s.calls[id].pc.target;
    FinishKeepsInv(s, id, s.heap[a].value);
    assert s.heap[a := s.heap[a].(value := s.heap[a].value)] == s.heap;
    assert Finish(s, id, s.heap[a].value) == UseBucket(s, id);
  }

  lemma UseGoesOn(s: State, id: nat)
    requires Inv(s) && id < |s.calls| && s.calls[id].pc.Use? && s.kind.Raising?
    requires s.calls[id].amount > s.heap[s.calls[id].pc.target].value
    ensures Inv(UseBucket(s, id))
  {
    var c := s.calls[id];
    QuietStep(s, id, c.(pc := Swap(c.pc.target, s.heap[c.pc.target].value)));
  }

  lemma UseAdds(s: State, id: nat)
    requires Inv(s) && id < |s.calls| && s.calls[id].pc.Use? && s.kind.Adding?
    ensures Inv(UseBucket(s, id))
  {
    var value := s.heap[s.calls[id].pc.target].value + s.calls[id].amount;
    FinishKeepsInv(s, id, value);
    assert Finish(s, id, value) == UseBucket(s, id);
  }

  lemma SwapKeepsInv(s: State, id: nat)
    requires Inv(s) && id < |s.calls| && s.calls[id].pc.Swap?
    ensures Inv(SwapValue(s, id))
  {
    var c := s.calls[id];
    assert CallOk(s, c);
    if s.heap[c.pc.target].value == c.pc.v {
      FinishKeepsInv(s, id, c.amount);
    } else {
      QuietStep(s, id, c.(pc := Use(c.pc.target)));
    }
  }

  lemma NextKeepsInv(s: State, step: Step)
    requires Inv(s) && Timely(s) && Enabled(s, step)
    ensures Inv(Next(s, step))
  {
    match step
    case Start(epoch, amount) => StartKeepsInv(s, epoch, amount);
    case Advance(id) =>
      var c := s.calls[id];
      match c.pc
      case Load => LoadKeepsInv(s, id);
      case Cas(seen) =>
        if s.slots[Slot(c.epoch)] == seen { InstallKeepsInv(s, id); } else { RetryKeepsInv(s, id); }
      case Use(a) =>
        if s.kind.Adding? { UseAdds(s, id); }
        else if c.amount <= s.heap[a].value { UseReturns(s, id); }
        else { UseGoesOn(s, id); }
      case Swap(_, _) => SwapKeepsInv(s, id);
      case Done =>
  }

  // ---------- runs ----------

  predicate StepAt(trace: seq<State>, steps: seq<Step>, k: nat)
    requires k < |steps| == |trace| - 1
  {
    WellFormed(trace[k]) ==> Enabled(trace[k], steps[k]) && trace[k + 1] == Next(trace[k], steps[k])
  }

  /** Only a well-formed state has a next one; `RunIsWellFormed` shows that all states of a
      run are. */
  ghost predicate IsRun(trace: seq<State>, steps: seq<Step>, kind: Kind) {
    && |trace| == |steps| + 1
    && trace[0] == Initial(kind)
    && forall k :: 0 <= k < |steps| ==> StepAt(trace, steps, k)
  }

  lemma StaysWellFormed(s: State, step: Step)
    requires WellFormed(s) && Enabled(s, step)
    ensures WellFormed(Next(s, step))
  {
    var s' := Next(s, step);
    if step.Advance? {
      assert s.calls[step.id] in s.calls;
      forall c | c in s'.calls ensures c in s.calls || c == s'.calls[step.id] {}
    }
  }

  /** No address is ever out of the heap, late writers or not. */
  lemma {:induction false} RunIsWellFormed(trace: seq<State>, steps: seq<Step>, kind: Kind, n: nat)
    requires IsRun(trace, steps, kind) && n <= |steps|
    ensures WellFormed(trace[n])
  {
    if n > 0 {
      RunIsWellFormed(trace, steps, kind, n - 1);
      assert StepAt(trace, steps, n - 1);
      StaysWellFormed(trace[n - 1], steps[n - 1]);
    }
  }

  lemma {:induction false} RunInv(trace: seq<State>, steps: seq<Step>, kind: Kind, n: nat)
    requires IsRun(trace, steps, kind) && n <= |steps|
    requires forall k :: 0 <= k < n ==> Timely(trace[k])
    ensures Inv(trace[n]) && trace[n].kind == kind
  {
    if n == 0 {
      InitialInv(kind);
    } else {
      RunInv(trace, steps, kind, n - 1);
      assert StepAt(trace, steps, n - 1);
      NextKeepsInv(trace[n - 1], steps[n - 1]);
    }
  }

  /** What all calls made so far, finished or not, were asked to record. */
  function Started(calls: seq<Call>): seq<Entry> {
    if calls == [] then []
    else Started(calls[..|calls| - 1]) + [Entry(calls[|calls| - 1].epoch, calls[|calls| - 1].amount)]
  }

  /** What the first `n` steps asked to record, in the order of the calls. */
  function AskedBy(steps: seq<Step>, n: nat): seq<Entry>
    requires n <= |steps|
  {
    if n == 0 then []
    else if steps[n - 1].Start? then AskedBy(steps, n - 1) + [Entry(steps[n - 1].epoch, steps[n - 1].amount)]
    else AskedBy(steps, n - 1)
  }

  lemma {:induction false} StartedAfterUpdate(calls: seq<Call>, id: nat, c: Call)
    requires id < |calls| && c.epoch == calls[id].epoch && c.amount == calls[id].amount
    ensures Started(calls[id := c]) == Started(calls)
  {
    var init := calls[..|calls| - 1];
    if id < |init| {
      StartedAfterUpdate(init, id, c);
      assert calls[id := c][..|calls| - 1] == init[id := c];
    } else {
      assert calls[id := c][..|calls| - 1] == init;
    }
  }

  lemma AdvanceKeepsRequests(s: State, id: nat)
    requires WellFormed(s) && Enabled(s, Advance(id))
    ensures var s' := Next(s, Advance(id));
            && s'.newest == s.newest && |s'.calls| == |s.calls| && s'.calls == s.calls[id := s'.calls[id]]
            && s'.calls[id].epoch == s.calls[id].epoch && s'.calls[id].amount == s.calls[id].amount
  {
  }

  /** The calls made are those asked for. */
  predicate Asked(s: State, asked: seq<Entry>) { Started(s.calls) == asked && s.newest == Newest(asked) }

  lemma StepAsks(s: State, step: Step, asked: seq<Entry>)
    requires WellFormed(s) && Enabled(s, step) && Asked(s, asked)
    ensures Asked(Next(s, step), if step.Start? then asked + [Entry(step.epoch, step.amount)] else asked)
  {
    var s' := Next(s, step);
    match step
    case Start(epoch, amount) =>
      assert s'.calls[..|s.calls|] == s.calls;
      AppendToLog(asked, Entry(epoch, amount), 0);
    case Advance(id) =>
      AdvanceKeepsRequests(s, id);
      StartedAfterUpdate(s.calls, id, s'.calls[id]);
  }

  lemma RunStepAsks(trace: seq<State>, steps: seq<Step>, kind: Kind, n: nat, asked: seq<Entry>)
    requires IsRun(trace, steps, kind) && n < |steps| && Asked(trace[n], asked)
    ensures Asked(trace[n + 1], if steps[n].Start? then asked + [Entry(steps[n].epoch, steps[n].amount)] else asked)
  {
    RunIsWellFormed(trace, steps, kind, n);
    assert StepAt(trace, steps, n);
    StepAsks(trace[n], steps[n], asked);
  }

  /** Every call made is there, with the second and the amount it was made with. */
  lemma {:induction false} CallsAreAsked(trace: seq<State>, steps: seq<Step>, kind: Kind, n: nat)
    requires IsRun(trace, steps, kind) && n <= |steps|
    ensures Asked(trace[n], AskedBy(steps, n))
  {
    if n > 0 {
      CallsAreAsked(trace, steps, kind, n - 1);
      RunStepAsks(trace, steps, kind, n - 1, AskedBy(steps, n - 1));
    } else {
      NothingAskedYet(kind);
    }
  }

  lemma NothingAskedYet(kind: Kind)
    ensures Asked(Initial(kind), [])
  {
  }

  lemma {:induction false} AllDone(calls: seq<Call>, now: int)
    requires forall c :: c in calls ==> c.pc.Done?
    ensures DoneSum(calls, now) == WindowSum(Started(calls), now)
    ensures DoneMax(calls, now) == WindowMax(Started(calls), now)
  {
    if calls != [] {
      AllDone(calls[..|calls| - 1], now);
      assert Started(calls)[..|Started(calls)| - 1] == Started(calls[..|calls| - 1]);
    }
  }

  /** At every moment, with writers half-way, the ring shows exactly the updates of the
      calls that have finished. */
  lemma ReaderSeesFinished(trace: seq<State>, steps: seq<Step>, kind: Kind, n: nat, now: int)
    requires IsRun(trace, steps, kind) && n <= |steps| && (forall k :: 0 <= k < n ==> Timely(trace[k]))
    requires now >= trace[n].newest
    ensures WellFormed(trace[n])
    ensures var s := trace[n];
            var ring := RingOf(s.heap, s.slots);
            if kind.Adding? then VisibleSum(ring, now) == DoneSum(s.calls, now)
            else VisibleMax(ring, now) == DoneMax(s.calls, now)
  {
    RunInv(trace, steps, kind, n);
    assert Agrees(trace[n]);
  }

  /** No update is lost: when every call has returned, in whatever order their atomic
      actions were interleaved, the reader sees exactly the log of all calls made. */
  lemma NoUpdateLost(trace: seq<State>, steps: seq<Step>, kind: Kind, now: int)
    requires IsRun(trace, steps, kind) && (forall k :: 0 <= k < |steps| ==> Timely(trace[k]))
    requires now >= Newest(AskedBy(steps, |steps|))
    requires forall c :: c in trace[|steps|].calls ==> c.pc.Done?
    ensures WellFormed(trace[|steps|])
    ensures var ring := RingOf(trace[|steps|].heap, trace[|steps|].slots);
            if kind.Adding? then VisibleSum(ring, now) == WindowSum(AskedBy(steps, |steps|), now)
            else VisibleMax(ring, now) == WindowMax(AskedBy(steps, |steps|), now)
  {
    CallsAreAsked(trace, steps, kind, |steps|);
    ReaderSeesFinished(trace, steps, kind, |steps|, now);
    AllDone(trace[|steps|].calls, now);
  }

  /** How many steps of its own an increment has left at most. */
  function Left(c: Call): nat {
    match c.pc
    case Load => if c.loads == 0 then 4 else 2
    case Cas(_) => 3
    case Use(_) => 1
    case _ => 0
  }

  lemma OwnStepShortens(s: State, id: nat)
    requires Inv(s) && s.kind.Adding? && id < |s.calls|
    ensures WellFormed(s) && |Next(s, Advance(id)).calls| == |s.calls|
    ensures var left := Left(Next(s, Advance(id)).calls[id]); left < Left(s.calls[id]) || left == 0
  {
    assert CallOk(s, s.calls[id]);
  }

  lemma OtherStepLeaves(s: State, step: Step, id: nat)
    requires WellFormed(s) && Enabled(s, step) && id < |s.calls| && step != Advance(id)
    ensures id < |Next(s, step).calls| && Next(s, step).calls[id] == s.calls[id]
  {
  }

  /** How many of the first `n` steps are of call `id`. */
  function OwnSteps(steps: seq<Step>, n: nat, id: nat): nat
    requires n <= |steps|
  {
    if n == 0 then 0
    else if steps[n - 1] == Advance(id) then OwnSteps(steps, n - 1, id) + 1
    else OwnSteps(steps, n - 1, id)
  }

  /** After `own` steps of its own, call `id` has at most the rest of four left. */
  predicate OnBudget(s: State, id: nat, own: nat) {
    if id < |s.calls| then Left(s.calls[id]) == 0 || Left(s.calls[id]) + own <= 4 else own == 0
  }

  lemma StaysOnBudget(s: State, step: Step, id: nat, own: nat)
    requires Inv(s) && s.kind.Adding? && Enabled(s, step) && OnBudget(s, id, own)
    ensures WellFormed(s) && OnBudget(Next(s, step), id, if step == Advance(id) then own + 1 else own)
  {
    if step == Advance(id) {
      OwnStepShortens(s, id);
    } else if id < |s.calls| {
      OtherStepLeaves(s, step, id);
    }
  }

  lemma RunStaysOnBudget(trace: seq<State>, steps: seq<Step>, n: nat, id: nat, own: nat)
    requires IsRun(trace, steps, Adding) && n < |steps| && (forall k :: 0 <= k <= n ==> Timely(trace[k]))
    requires OnBudget(trace[n], id, own)
    ensures OnBudget(trace[n + 1], id, if steps[n] == Advance(id) then own + 1 else own)
  {
    RunInv(trace, steps, Adding, n);
    assert StepAt(trace, steps, n);
    StaysOnBudget(trace[n], steps[n], id, own);
  }

  lemma {:induction false} StepsShorten(trace: seq<State>, steps: seq<Step>, n: nat, id: nat)
    requires IsRun(trace, steps, Adding) && n <= |steps| && (forall k :: 0 <= k < n ==> Timely(trace[k]))
    ensures OnBudget(trace[n], id, OwnSteps(steps, n, id))
  {
    if n > 0 {
      StepsShorten(trace, steps, n - 1, id);
      RunStaysOnBudget(trace, steps, n - 1, id, OwnSteps(steps, n - 1, id));
    }
  }

  /** An increment waits for nobody: after four steps of its own, whatever the others do in
      between, it is done. */
  lemma IncrementIsWaitFree(trace: seq<State>, steps: seq<Step>, n: nat, id: nat)
    requires IsRun(trace, steps, Adding) && n <= |steps| && (forall k :: 0 <= k < n ==> Timely(trace[k]))
    requires OwnSteps(steps, n, id) >= 4
    ensures id < |trace[n].calls| && trace[n].calls[id].pc.Done?
  {
    StepsShorten(trace, steps, n, id);
    RunInv(trace, steps, Adding, n);
    assert CallOk(trace[n], trace[n].calls[id]);
  }

  /** The retry loop: no call ever loads its slot a third time. */
  lemma AtMostOneRetry(trace: seq<State>, steps: seq<Step>, kind: Kind, n: nat, id: nat)
    requires IsRun(trace, steps, kind) && n <= |steps| && (forall k :: 0 <= k < n ==> Timely(trace[k]))
    requires id < |trace[n].calls|
    ensures trace[n].calls[id].loads <= 2
  {
    RunInv(trace, steps, kind, n);
    assert CallOk(trace[n], trace[n].calls[id]);
  }

  // ---------- a reader that loads one slot after the other ----------

  function SlotAt(s: State, i: nat): Bucket
    requires WellFormed(s) && i < SIZE
  {
    s.heap[s.slots[i]]
  }

  predicate NothingNegative(s: State) {
    s.kind.Adding? ==> forall c :: c in s.calls ==> c.amount >= 0
  }

  /** Seen from `now`, no slot ever goes down: what is evicted had already left the window. */
  lemma SlotOnlyRises(s: State, step: Step, i: nat, now: int)
    requires Inv(s) && Timely(s) && NothingNegative(s) && Enabled(s, step) && i < SIZE
    requires now >= Next(s, step).newest
    ensures WellFormed(Next(s, step)) && Next(s, step).newest >= s.newest
    ensures Visible(SlotAt(s, i), now) <= Visible(SlotAt(Next(s, step), i), now)
  {
    NextKeepsInv(s, step);
    if step.Advance? {
      var c := s.calls[step.id];
      assert c in s.calls && CallOk(s, c);
      if c.pc.Cas? {
        var ring := RingOf(s.heap, s.slots);
        TimelyEvictsOnlyExpired(ring, s.newest, c.epoch);
        assert ring[Slot(c.epoch)] == SlotAt(s, Slot(c.epoch));
      }
    }
  }

  lemma NothingNegativeKept(s: State, step: Step)
    requires WellFormed(s) && NothingNegative(s) && Enabled(s, step) && (step.Start? ==> step.amount >= 0)
    ensures NothingNegative(Next(s, step))
  {
    var s' := Next(s, step);
    if step.Advance? {
      assert s.calls[step.id] in s.calls;
      forall c | c in s'.calls ensures c in s.calls || c == s'.calls[step.id] {}
    }
  }

  lemma {:induction false} RunNothingNegative(trace: seq<State>, steps: seq<Step>, kind: Kind, n: nat)
    requires IsRun(trace, steps, kind) && n <= |steps|
    requires forall k :: 0 <= k < n && steps[k].Start? ==> steps[k].amount >= 0
    ensures NothingNegative(trace[n])
  {
    if n > 0 {
      RunNothingNegative(trace, steps, kind, n - 1);
      RunIsWellFormed(trace, steps, kind, n - 1);
      assert StepAt(trace, steps, n - 1);
      NothingNegativeKept(trace[n - 1], steps[n - 1]);
    }
  }

  lemma RunStepRises(trace: seq<State>, steps: seq<Step>, kind: Kind, n: nat, i: nat, now: int)
    requires IsRun(trace, steps, kind) && n < |steps| && i < SIZE
    requires forall k :: 0 <= k <= n ==> Timely(trace[k]) && (steps[k].Start? ==> steps[k].amount >= 0)
    requires now >= trace[n + 1].newest
    ensures WellFormed(trace[n]) && WellFormed(trace[n + 1]) && trace[n].newest <= trace[n + 1].newest
    ensures Visible(SlotAt(trace[n], i), now) <= Visible(SlotAt(trace[n + 1], i), now)
  {
    RunInv(trace, steps, kind, n);
    RunNothingNegative(trace, steps, kind, n);
    assert StepAt(trace, steps, n);
    SlotOnlyRises(trace[n], steps[n], i, now);
  }

  lemma {:induction false} SlotsOnlyRise(trace: seq<State>, steps: seq<Step>, kind: Kind, m: nat, n: nat, i: nat, now: int)
    requires IsRun(trace, steps, kind) && m <= n <= |steps| && i < SIZE
    requires forall k :: 0 <= k < n ==> Timely(trace[k]) && (steps[k].Start? ==> steps[k].amount >= 0)
    requires now >= trace[n].newest
    ensures WellFormed(trace[m]) && WellFormed(trace[n]) && trace[m].newest <= trace[n].newest
    ensures Visible(SlotAt(trace[m], i), now) <= Visible(SlotAt(trace[n], i), now)
    decreases n
  {
    if m < n {
      RunStepRises(trace, steps, kind, n - 1, i, now);
      SlotsOnlyRise(trace, steps, kind, m, n - 1, i, now);
    } else {
      RunIsWellFormed(trace, steps, kind, m);
    }
  }

  lemma {:induction false} VisibleInOrder(low: seq<Bucket>, high: seq<Bucket>, now: int)
    requires |low| == |high|
    requires forall i :: 0 <= i < |low| ==> Visible(low[i], now) <= Visible(high[i], now)
    ensures VisibleSum(low, now) <= VisibleSum(high, now) && VisibleMax(low, now) <= VisibleMax(high, now)
  {
    if low != [] {
      VisibleInOrder(low[..|low| - 1], high[..|high| - 1], now);
    }
  }

  /** A reader among running writers, which finds `found[i]` in slot `i` at the moment
      `at[i]`: its sum, or maximum, lies between that of the calls finished when it began
      and that of the calls finished when it ended. */
  lemma SlowReaderIsBetween(trace: seq<State>, steps: seq<Step>, kind: Kind, at: seq<nat>, found: seq<Bucket>, now: int)
    requires IsRun(trace, steps, kind) && |at| == SIZE == |found| && at[SIZE - 1] <= |steps|
    requires forall i, j :: 0 <= i <= j < SIZE ==> at[i] <= at[j]
    requires forall i :: 0 <= i < SIZE && WellFormed(trace[at[i]]) ==> found[i] == SlotAt(trace[at[i]], i)
    requires forall k :: 0 <= k < at[SIZE - 1] ==> Timely(trace[k]) && (steps[k].Start? ==> steps[k].amount >= 0)
    requires now >= trace[at[SIZE - 1]].newest
    ensures var before, after := trace[at[0]].calls, trace[at[SIZE - 1]].calls;
            if kind.Adding? then DoneSum(before, now) <= VisibleSum(found, now) <= DoneSum(after, now)
            else DoneMax(before, now) <= VisibleMax(found, now) <= DoneMax(after, now)
  {
    var first, last := at[0], at[SIZE - 1];
    SlotsOnlyRise(trace, steps, kind, first, last, 0, now);
    var low, high := RingOf(trace[first].heap, trace[first].slots), RingOf(trace[last].heap, trace[last].slots);
    forall i | 0 <= i < SIZE ensures Visible(low[i], now) <= Visible(found[i], now) <= Visible(high[i], now) {
      SlotsOnlyRise(trace, steps, kind, at[i], last, i, now);
      SlotsOnlyRise(trace, steps, kind, first, at[i], i, now);
    }
    VisibleInOrder(low, found, now);
    VisibleInOrder(found, high, now);
    ReaderSeesFinished(trace, steps, kind, first, now);
    ReaderSeesFinished(trace, steps, kind, last, now);
  }
}
