/** The table of circuits: a pointer to a map that readers load without a lock and that
    writers replace, under a lock, by an extended copy.

    Maps live on a heap, so that a writer changing a map in place would be seen by whoever
    holds it.  Each load, lock, clone, insertion and publication is a step of its own, and
    a run is any interleaving of calls to `GetCircuit` and `Flush`. */
module Registry {
  import opened Common

  type Name = string

  /** A `GetCircuit` call: `at` is the address of the map it is working with, and a call
      that is back remembers the map in which it found or put its circuit. */
  datatype Get =
    | Load
    | Waiting
    | Locked
    | Cloning(at: nat)
    | Filling(at: nat)
    | Publishing(at: nat, circuit: nat)
    | Unlocking(at: nat, circuit: nat, created: bool)
    | Back(at: nat, circuit: nat, created: bool)

  datatype Flush = FlushWaiting | FlushLocked | FlushUnlocking | FlushBack

  datatype Thread = Getting(name: Name, get: Get) | Flushing(flush: Flush)

  /** `epochs[a]` is how many flushes had been published when map `a` was made for
      publication, and `public` the maps that were ever published. */
  datatype State = State(
    heap: seq<map<Name, nat>>, current: nat, lock: Option<nat>, circuits: nat, threads: seq<Thread>,
    epochs: seq<nat>, public: set<nat>)

  datatype Step = CallGet(name: Name) | CallFlush | Advance(id: nat)

  const INITIAL: State := State([map[]], 0, None, 0, [], [0], {0})

  /** The addresses in use are on the heap. */
  predicate WellFormed(s: State) {
    && s.current < |s.heap| == |s.epochs|
    && forall i :: 0 <= i < |s.threads| && s.threads[i].Getting? ==> OnHeap(s, s.threads[i].get)
  }

  predicate OnHeap(s: State, get: Get) { get.Cloning? || get.Filling? || get.Publishing? ==> get.at < |s.heap| }

  predicate Enabled(s: State, step: Step) {
    step.Advance? ==>
      && step.id < |s.threads|
      && match s.threads[step.id]
         case Getting(_, get) => get.Waiting? ==> s.lock.None?
         case Flushing(flush) => flush.FlushWaiting? ==> s.lock.None?
  }

  function Move(s: State, id: nat, thread: Thread): State
    requires id < |s.threads|
  {
    s.(threads := s.threads[id := thread])
  }

  function NextGet(s: State, id: nat, name: Name, get: Get): State
    requires WellFormed(s) && id < |s.threads| && OnHeap(s, get)
  {
    var now := s.heap[s.current];
    match get
    case Load =>
      if name in now then Move(s, id, Getting(name, Back(s.current, now[name], false)))
      else Move(s, id, Getting(name, Waiting))
    case Waiting => Move(s, id, Getting(name, Locked)).(lock := Some(id))
    case Locked =>
      if name in now then Move(s, id, Getting(name, Unlocking(s.current, now[name], false)))
      else Move(s, id, Getting(name, Cloning(s.current)))
    case Cloning(a) =>
      Move(s, id, Getting(name, Filling(|s.heap|))).(heap := s.heap + [s.heap[a]], epochs := s.epochs + [s.epochs[a]])
    case Filling(a) =>
      var filled: map<Name, nat> := s.heap[a][name := s.circuits];
      Move(s, id, Getting(name, Publishing(a, s.circuits))).(heap := s.heap[a := filled], circuits := s.circuits + 1)
    case Publishing(a, c) =>
      Move(s, id, Getting(name, Unlocking(a, c, true))).(current := a, public := s.public + {a})
    case Unlocking(a, c, created) => Move(s, id, Getting(name, Back(a, c, created))).(lock := None)
    case Back(_, _, _) => s
  }

  function NextFlush(s: State, id: nat, flush: Flush): State
    requires WellFormed(s) && id < |s.threads|
  {
    match flush
    case FlushWaiting => Move(s, id, Flushing(FlushLocked)).(lock := Some(id))
    case FlushLocked =>
      Move(s, id, Flushing(FlushUnlocking))
        .(heap := s.heap + [map[]], epochs := s.epochs + [s.epochs[s.current] + 1],
          current := |s.heap|, public := s.public + {|s.heap|})
    case FlushUnlocking => Move(s, id, Flushing(FlushBack)).(lock := None)
    case FlushBack => s
  }

  function Next(s: State, step: Step): State
    requires WellFormed(s) && Enabled(s, step)
  {
    match step
    case CallGet(name) => s.(threads := s.threads + [Getting(name, Load)])
    case CallFlush => s.(threads := s.threads + [Flushing(FlushWaiting)])
    case Advance(id) =>
      match s.threads[id]
      case Getting(name, get) => NextGet(s, id, name, get)
      case Flushing(flush) => NextFlush(s, id, flush)
  }

  // ---------- the invariant ----------

  predicate Inside(t: Thread) {
    match t
    case Getting(_, get) => get.Locked? || get.Cloning? || get.Filling? || get.Publishing? || get.Unlocking?
    case Flushing(flush) => flush.FlushLocked? || flush.FlushUnlocking?
  }

  /** `m` keeps every entry of `l`. */
  predicate Extends(m: map<Name, nat>, l: map<Name, nat>) {
    forall name :: name in l ==> name in m && m[name] == l[name]
  }

  predicate MapsOk(s: State) {
    && s.current < |s.heap| == |s.epochs| && s.current in s.public
    && (forall a :: a in s.public ==> a <= s.current && s.epochs[a] <= s.epochs[s.current])
    && (forall a, b :: a in s.public && b in s.public && a <= b && s.epochs[a] == s.epochs[b] ==>
          Extends(s.heap[b], s.heap[a]))
  }

  /** No map published in the epoch of `at`, before `at`, has the name. */
  predicate NewAt(s: State, name: Name, at: nat)
    requires MapsOk(s) && at < |s.heap|
  {
    forall a :: a in s.public && a < at && s.epochs[a] == s.epochs[at] ==> name !in s.heap[a]
  }

  /** The map being prepared: the newest on the heap, nobody else's. */
  predicate Draft(s: State, at: nat)
    requires MapsOk(s)
  {
    at == |s.heap| - 1 && at > s.current && s.epochs[at] == s.epochs[s.current]
  }

  predicate Result(s: State, name: Name, at: nat, circuit: nat, created: bool)
    requires MapsOk(s)
  {
    && at in s.public
    && name in s.heap[at] && s.heap[at][name] == circuit
    && (created ==> NewAt(s, name, at))
  }

  predicate ThreadOk(s: State, t: Thread)
    requires MapsOk(s)
  {
    t.Getting? ==>
      match t.get
      case Load => true
      case Waiting => true
      case Locked => true
      case Cloning(a) => a == s.current && t.name !in s.heap[a]
      case Filling(a) => Draft(s, a) && s.heap[a] == s.heap[s.current] && t.name !in s.heap[a]
      case Publishing(a, c) =>
        Draft(s, a) && t.name !in s.heap[s.current] && s.heap[a] == s.heap[s.current][t.name := c]
      case Unlocking(a, c, created) => Result(s, t.name, a, c, created)
      case Back(a, c, created) => Result(s, t.name, a, c, created)
  }

  /** The map a call published, if it has. */
  function Published(t: Thread): Option<nat> {
    if t.Getting? && (t.get.Unlocking? || t.get.Back?) && t.get.created then Some(t.get.at) else None
  }

  predicate Inv(s: State) {
    && WellFormed(s) && MapsOk(s)
    && (s.lock.Some? ==> s.lock.value < |s.threads|)
    && (forall i :: 0 <= i < |s.threads| ==> (Inside(s.threads[i]) <==> s.lock == Some(i)))
    && (forall i :: 0 <= i < |s.threads| ==> ThreadOk(s, s.threads[i]))
    && (forall i, j :: 0 <= i < j < |s.threads| && Published(s.threads[i]).Some? ==>
          Published(s.threads[i]) != Published(s.threads[j]))
  }

  /** Two published maps of one epoch, whichever came first, agree where both are defined. */
  lemma SameEpochAgree(s: State, a: nat, b: nat, name: Name)
    requires MapsOk(s) && a in s.public && b in s.public && s.epochs[a] == s.epochs[b]
    requires name in s.heap[a] && name in s.heap[b]
    ensures s.heap[a][name] == s.heap[b][name]
  {
  }

  // ---------- the steps keep the invariant ----------

  lemma SameMapsSameThread(s: State, s': State, t: Thread)
    requires MapsOk(s) && MapsOk(s') && ThreadOk(s, t)
    requires s.heap == s'.heap && s.current == s'.current && s.epochs == s'.epochs && s.public == s'.public
    ensures ThreadOk(s', t)
  {
  }

  /** Steps that change neither maps nor publication. */
  lemma QuietMove(s: State, id: nat, t: Thread, lock: Option<nat>)
    requires Inv(s) && id < |s.threads| && ThreadOk(s, t) && Published(t) == Published(s.threads[id])
    requires lock.Some? ==> lock.value < |s.threads|
    requires forall i :: 0 <= i < |s.threads| ==>
               (Inside(if i == id then t else s.threads[i]) <==> lock == Some(i))
    ensures Inv(Move(s, id, t).(lock := lock))
  {
    var s' := Move(s, id, t).(lock := lock);
    forall i | 0 <= i < |s'.threads| ensures ThreadOk(s', s'.threads[i]) {
      assert ThreadOk(s, s'.threads[i]);
      SameMapsSameThread(s, s', s'.threads[i]);
    }
  }

  lemma CloneKeepsInv(s: State, id: nat, name: Name, a: nat)
    requires Inv(s) && id < |s.threads| && s.threads[id] == Getting(name, Cloning(a)) && a < |s.heap|
    ensures Inv(NextGet(s, id, name, Cloning(a)))
  {
  }

  lemma FillKeepsInv(s: State, id: nat, name: Name, a: nat)
    requires Inv(s) && id < |s.threads| && s.threads[id] == Getting(name, Filling(a)) && a < |s.heap|
    ensures Inv(NextGet(s, id, name, Filling(a)))
  {
  }

  lemma PublishKeepsInv(s: State, id: nat, name: Name, a: nat, c: nat)
    requires Inv(s) && id < |s.threads| && s.threads[id] == Getting(name, Publishing(a, c)) && a < |s.heap|
    ensures Inv(NextGet(s, id, name, Publishing(a, c)))
  {
  }

  lemma FlushKeepsInv(s: State, id: nat)
    requires Inv(s) && id < |s.threads| && s.threads[id] == Flushing(FlushLocked)
    ensures Inv(NextFlush(s, id, FlushLocked))
  {
  }

  lemma CallKeepsInv(s: State, step: Step)
    requires Inv(s) && !step.Advance?
    ensures Inv(Next(s, step))
  {
    var s' := Next(s, step);
    forall i | 0 <= i < |s'.threads| ensures ThreadOk(s', s'.threads[i]) && (Inside(s'.threads[i]) <==> s'.lock == Some(i)) {
      if i < |s.threads| {
        assert ThreadOk(s, s.threads[i]);
        SameMapsSameThread(s, s', s.threads[i]);
      }
    }
  }

  lemma GetKeepsInv(s: State, id: nat, name: Name, get: Get)
    requires Inv(s) && Enabled(s, Advance(id)) && s.threads[id] == Getting(name, get)
    ensures Inv(NextGet(s, id, name, get))
  {
    assert ThreadOk(s, s.threads[id]);
    var s' := NextGet(s, id, name, get);
    match get
    case Cloning(a) => CloneKeepsInv(s, id, name, a);
    case Filling(a) => FillKeepsInv(s, id, name, a);
    case Publishing(a, c) => PublishKeepsInv(s, id, name, a, c);
    case Back(_, _, _) =>
    case _ => QuietMove(s, id, s'.threads[id], s'.lock);
  }

  lemma NextKeepsInv(s: State, step: Step)
    requires Inv(s) && Enabled(s, step)
    ensures Inv(Next(s, step))
  {
    if !step.Advance? {
      CallKeepsInv(s, step);
    } else {
      match s.threads[step.id]
      case Getting(name, get) => GetKeepsInv(s, step.id, name, get);
      case Flushing(flush) =>
        if flush.FlushLocked? {
          FlushKeepsInv(s, step.id);
        } else if !flush.FlushBack? {
          var s' := NextFlush(s, step.id, flush);
          QuietMove(s, step.id, s'.threads[step.id], s'.lock);
        }
    }
  }

  lemma PublishedStays(s: State, step: Step, a: nat)
    requires Inv(s) && Enabled(s, step) && a in s.public
    ensures var s' := Next(s, step); a in s'.public && a < |s'.heap| && s'.heap[a] == s.heap[a] && s'.epochs[a] == s.epochs[a]
  {
    if step.Advance? {
      assert ThreadOk(s, s.threads[step.id]);
    }
  }

  // ---------- runs ----------

  predicate StepAt(trace: seq<State>, steps: seq<Step>, k: nat)
    requires k < |steps| == |trace| - 1
  {
    WellFormed(trace[k]) ==> Enabled(trace[k], steps[k]) && trace[k + 1] == Next(trace[k], steps[k])
  }

  /** Only a well-formed state has a next one; the invariant says that all states of a run
      are. */
  ghost predicate IsRun(trace: seq<State>, steps: seq<Step>) {
    && |trace| == |steps| + 1
    && trace[0] == INITIAL
    && forall k :: 0 <= k < |steps| ==> StepAt(trace, steps, k)
  }

  lemma {:induction false} RunInv(trace: seq<State>, steps: seq<Step>, n: nat)
    requires IsRun(trace, steps) && n <= |steps|
    ensures Inv(trace[n])
  {
    if n > 0 {
      RunInv(trace, steps, n - 1);
      assert StepAt(trace, steps, n - 1);
      NextKeepsInv(trace[n - 1], steps[n - 1]);
    }
  }

  /** Readers may hold a map for as long as they like: once published, it never changes, and
      it keeps its epoch. */
  lemma {:induction false} PublishedMapsNeverChange(trace: seq<State>, steps: seq<Step>, m: nat, n: nat, a: nat)
    requires IsRun(trace, steps) && m <= n <= |steps| && a in trace[m].public
    ensures Inv(trace[m]) && Inv(trace[n])
    ensures a in trace[n].public && trace[n].heap[a] == trace[m].heap[a] && trace[n].epochs[a] == trace[m].epochs[a]
    decreases n
  {
    RunInv(trace, steps, m);
    RunInv(trace, steps, n);
    if m < n {
      PublishedMapsNeverChange(trace, steps, m, n - 1, a);
      assert StepAt(trace, steps, n - 1);
      PublishedStays(trace[n - 1], steps[n - 1], a);
    }
  }

  /** Between two flushes no entry is lost: what the current map held at one moment, the
      current map of any later moment of that epoch holds too. */
  lemma NoEntryIsLost(trace: seq<State>, steps: seq<Step>, m: nat, n: nat)
    requires IsRun(trace, steps) && m <= n <= |steps|
    ensures Inv(trace[m]) && Inv(trace[n])
    ensures var before, after := trace[m], trace[n];
            before.epochs[before.current] == after.epochs[after.current] ==>
              Extends(after.heap[after.current], before.heap[before.current])
  {
    RunInv(trace, steps, m);
    PublishedMapsNeverChange(trace, steps, m, n, trace[m].current);
  }

  /** One circuit per name: calls for one name that worked with maps of one epoch, that is
      with no flush published in between, all get the same circuit, and at most one of them
      created it. */
  lemma SingleCreation(trace: seq<State>, steps: seq<Step>, i: nat, j: nat)
    requires IsRun(trace, steps)
    requires var s := trace[|steps|];
             && i < |s.threads| && j < |s.threads| && i != j
             && s.threads[i].Getting? && s.threads[i].get.Back? && s.threads[j].Getting? && s.threads[j].get.Back?
             && s.threads[i].name == s.threads[j].name
    ensures Inv(trace[|steps|])
    ensures var s := trace[|steps|];
            var a, b := s.threads[i].get, s.threads[j].get;
            a.at in s.public && b.at in s.public
            && (s.epochs[a.at] == s.epochs[b.at] ==> a.circuit == b.circuit && !(a.created && b.created))
  {
    RunInv(trace, steps, |steps|);
    var s := trace[|steps|];
    assert ThreadOk(s, s.threads[i]) && ThreadOk(s, s.threads[j]);
    var a, b := s.threads[i].get, s.threads[j].get;
    if s.epochs[a.at] == s.epochs[b.at] {
      SameEpochAgree(s, a.at, b.at, s.threads[i].name);
      assert Published(s.threads[i]).Some? ==> Published(s.threads[i]) != Published(s.threads[j]) by {
        if j < i {
          assert Published(s.threads[j]).Some? ==> Published(s.threads[j]) != Published(s.threads[i]);
        }
      }
    }
  }

  /** The calls among the first `n` steps, in order: the name asked for, or none for a flush. */
  function CallsIn(steps: seq<Step>, n: nat): seq<Option<Name>>
    requires n <= |steps|
  {
    if n == 0 then []
    else if steps[n - 1].Advance? then CallsIn(steps, n - 1)
    else CallsIn(steps, n - 1) + [if steps[n - 1].CallGet? then Some(steps[n - 1].name) else None]
  }

  predicate AreCalls(threads: seq<Thread>, calls: seq<Option<Name>>) {
    && |threads| == |calls|
    && forall i :: 0 <= i < |threads| ==> calls[i] == if threads[i].Getting? then Some(threads[i].name) else None
  }

  lemma StepKeepsCalls(s: State, step: Step, calls: seq<Option<Name>>)
    requires WellFormed(s) && Enabled(s, step) && AreCalls(s.threads, calls)
    ensures AreCalls(Next(s, step).threads,
                     if step.Advance? then calls else calls + [if step.CallGet? then Some(step.name) else None])
  {
  }

  /** Every call is carried out, under the name it asked for, and there are no others. */
  lemma {:induction false} ThreadsAreTheCalls(trace: seq<State>, steps: seq<Step>, n: nat)
    requires IsRun(trace, steps) && n <= |steps|
    ensures AreCalls(trace[n].threads, CallsIn(steps, n))
  {
    if n > 0 {
      ThreadsAreTheCalls(trace, steps, n - 1);
      RunInv(trace, steps, n - 1);
      assert StepAt(trace, steps, n - 1);
      StepKeepsCalls(trace[n - 1], steps[n - 1], CallsIn(steps, n - 1));
    }
  }

  // ---------- where circuits come from ----------

  /** The published map `a` has circuit `c` under name `x`. */
  predicate Has(s: State, a: nat, x: Name, c: nat) {
    a in s.public && a < |s.heap| == |s.epochs| && x in s.heap[a] && s.heap[a][x] == c
  }

  /** The call of `t` published circuit `c` under name `x` in epoch `epoch`, as created. */
  predicate Created(s: State, t: Thread, x: Name, c: nat, epoch: nat) {
    && t.Getting? && t.name == x && (t.get.Unlocking? || t.get.Back?)
    && t.get.created && t.get.circuit == c && t.get.at < |s.epochs| && s.epochs[t.get.at] == epoch
  }

  predicate HasCreator(s: State, x: Name, c: nat, epoch: nat) {
    exists i :: 0 <= i < |s.threads| && Created(s, s.threads[i], x, c, epoch)
  }

  ghost predicate AllCreated(s: State) {
    forall a: nat, x, c: nat :: Has(s, a, x, c) ==> HasCreator(s, x, c, s.epochs[a])
  }

  /** A circuit is known under one name and in one epoch only, and one that is about to be
      published is known nowhere. */
  ghost predicate AllDistinct(s: State) {
    && (forall a: nat, x, c: nat :: Has(s, a, x, c) ==> c < s.circuits)
    && (forall a: nat, x, b: nat, y, c: nat :: Has(s, a, x, c) && Has(s, b, y, c) ==> x == y && s.epochs[a] == s.epochs[b])
    && (forall i :: 0 <= i < |s.threads| && s.threads[i].Getting? && s.threads[i].get.Publishing? ==> Unknown(s, s.threads[i].get.circuit))
  }

  ghost predicate Unknown(s: State, c: nat) { c < s.circuits && forall a: nat, x :: !Has(s, a, x, c) }

  /** The step is the publication of a new circuit. */
  predicate Publishes(s: State, step: Step) {
    step.Advance? && step.id < |s.threads| && s.threads[step.id].Getting? && s.threads[step.id].get.Publishing?
  }

  /** What a published map has after a step, some published map of that epoch had before,
      or it is the circuit that the step publishes. */
  lemma HasOrigin(s: State, step: Step, a: nat, x: Name, c: nat)
    requires Inv(s) && Enabled(s, step) && Has(Next(s, step), a, x, c)
    ensures (exists b: nat :: Has(s, b, x, c) && s.epochs[b] == Next(s, step).epochs[a])
         || (Publishes(s, step) && x == s.threads[step.id].name && c == s.threads[step.id].get.circuit
             && Next(s, step).epochs[a] == s.epochs[s.current])
  {
    var s' := Next(s, step);
    if a in s.public {
      PublishedStays(s, step, a);
      assert Has(s, a, x, c) && s.epochs[a] == s'.epochs[a];
    } else {
      assert ThreadOk(s, s.threads[step.id]);
      if x in s.heap[s.current] && s.heap[s.current][x] == c {
        assert Has(s, s.current, x, c);
      }
    }
  }

  lemma EpochsOnlyGrow(s: State, step: Step)
    requires WellFormed(s) && Enabled(s, step)
    ensures s.epochs <= Next(s, step).epochs
  {
  }

  lemma CreatedStays(s: State, step: Step, i: nat, x: Name, c: nat, epoch: nat)
    requires WellFormed(s) && Enabled(s, step) && i < |s.threads| && Created(s, s.threads[i], x, c, epoch)
    ensures i < |Next(s, step).threads| && Created(Next(s, step), Next(s, step).threads[i], x, c, epoch)
  {
    EpochsOnlyGrow(s, step);
  }

  lemma CreatorStays(s: State, step: Step, x: Name, c: nat, epoch: nat)
    requires WellFormed(s) && Enabled(s, step) && HasCreator(s, x, c, epoch)
    ensures HasCreator(Next(s, step), x, c, epoch)
  {
    var i :| 0 <= i < |s.threads| && Created(s, s.threads[i], x, c, epoch);
    CreatedStays(s, step, i, x, c, epoch);
  }

  lemma AllCreatedKept(s: State, step: Step)
    requires Inv(s) && Enabled(s, step) && AllCreated(s)
    ensures AllCreated(Next(s, step))
  {
    var s' := Next(s, step);
    forall a: nat, x, c: nat | Has(s', a, x, c) ensures HasCreator(s', x, c, s'.epochs[a]) {
      HasOrigin(s, step, a, x, c);
      if b: nat :| Has(s, b, x, c) && s.epochs[b] == s'.epochs[a] {
        CreatorStays(s, step, x, c, s.epochs[b]);
      } else {
        assert ThreadOk(s, s.threads[step.id]);
        assert Created(s', s'.threads[step.id], x, c, s'.epochs[a]);
      }
    }
  }

  lemma DistinctKept(s: State, step: Step)
    requires Inv(s) && Enabled(s, step) && AllDistinct(s)
    ensures var s' := Next(s, step);
            forall a: nat, x, b: nat, y, c: nat :: Has(s', a, x, c) && Has(s', b, y, c) ==> x == y && s'.epochs[a] == s'.epochs[b]
  {
    var s' := Next(s, step);
    forall a: nat, x, b: nat, y, c: nat | Has(s', a, x, c) && Has(s', b, y, c) ensures x == y && s'.epochs[a] == s'.epochs[b] {
      HasOrigin(s, step, a, x, c);
      HasOrigin(s, step, b, y, c);
    }
  }

  lemma CircuitsOnlyCount(s: State, step: Step)
    requires WellFormed(s) && Enabled(s, step)
    ensures s.circuits <= Next(s, step).circuits
  {
  }

  lemma KnownAreCounted(s: State, step: Step)
    requires Inv(s) && Enabled(s, step) && AllDistinct(s)
    ensures var s' := Next(s, step); forall a: nat, x, c: nat :: Has(s', a, x, c) ==> c < s'.circuits
  {
    var s' := Next(s, step);
    CircuitsOnlyCount(s, step);
    forall a: nat, x, c: nat | Has(s', a, x, c) ensures c < s'.circuits {
      HasOrigin(s, step, a, x, c);
      assert Publishes(s, step) ==> Unknown(s, s.threads[step.id].get.circuit);
    }
  }

  /** While one call is about to publish, no other does. */
  lemma OnePublisher(s: State, step: Step, i: nat)
    requires Inv(s) && Enabled(s, step)
    requires var s' := Next(s, step); i < |s'.threads| && s'.threads[i].Getting? && s'.threads[i].get.Publishing?
    ensures !Publishes(s, step) && i < |s.threads|
    ensures s.threads[i] == Next(s, step).threads[i] || Next(s, step).threads[i].get.circuit == s.circuits < Next(s, step).circuits
  {
    assert i < |s.threads|;
    assert Inside(Next(s, step).threads[i]);
    assert i < |s.threads| ==> (Inside(s.threads[i]) <==> s.lock == Some(i));
    assert step.Advance? ==> (Inside(s.threads[step.id]) <==> s.lock == Some(step.id));
  }

  lemma UnpublishedStaysUnknown(s: State, step: Step, i: nat)
    requires Inv(s) && Enabled(s, step) && AllDistinct(s)
    requires var s' := Next(s, step); i < |s'.threads| && s'.threads[i].Getting? && s'.threads[i].get.Publishing?
    ensures Unknown(Next(s, step), Next(s, step).threads[i].get.circuit)
  {
    var s' := Next(s, step);
    var c := s'.threads[i].get.circuit;
    CircuitsOnlyCount(s, step);
    OnePublisher(s, step, i);
    assert s.threads[i] == s'.threads[i] ==> Unknown(s, c);
    forall a: nat, x, y: nat | Has(s', a, x, y) ensures y != c {
      HasOrigin(s, step, a, x, y);
    }
  }

  lemma AllDistinctKept(s: State, step: Step)
    requires Inv(s) && Enabled(s, step) && AllDistinct(s)
    ensures AllDistinct(Next(s, step))
  {
    var s' := Next(s, step);
    DistinctKept(s, step);
    KnownAreCounted(s, step);
    forall i | 0 <= i < |s'.threads| && s'.threads[i].Getting? && s'.threads[i].get.Publishing?
      ensures Unknown(s', s'.threads[i].get.circuit)
    {
      UnpublishedStaysUnknown(s, step, i);
    }
  }

  lemma {:induction false} RunOrigins(trace: seq<State>, steps: seq<Step>, n: nat)
    requires IsRun(trace, steps) && n <= |steps|
    ensures Inv(trace[n]) && AllCreated(trace[n]) && AllDistinct(trace[n])
  {
    RunInv(trace, steps, n);
    if n > 0 {
      RunOrigins(trace, steps, n - 1);
      assert StepAt(trace, steps, n - 1);
      AllCreatedKept(trace[n - 1], steps[n - 1]);
      AllDistinctKept(trace[n - 1], steps[n - 1]);
    }
  }

  /** Every circuit that a call finds in a map of some epoch was created by a call for the
      same name in that same epoch; so a flush leaves nothing behind. */
  lemma FoundWasCreated(trace: seq<State>, steps: seq<Step>, i: nat)
    requires IsRun(trace, steps)
    requires var s := trace[|steps|]; i < |s.threads| && s.threads[i].Getting? && s.threads[i].get.Back?
    ensures WellFormed(trace[|steps|])
    ensures var s, t := trace[|steps|], trace[|steps|].threads[i];
            t.get.at < |s.epochs| && HasCreator(s, t.name, t.get.circuit, s.epochs[t.get.at])
  {
    RunOrigins(trace, steps, |steps|);
    var s, t := trace[|steps|], trace[|steps|].threads[i];
    assert ThreadOk(s, t);
    assert Has(s, t.get.at, t.name, t.get.circuit);
  }

  /** Two calls that are back got the same circuit if and only if they asked for the same
      name in the same epoch. */
  lemma SameCircuitIff(trace: seq<State>, steps: seq<Step>, i: nat, j: nat)
    requires IsRun(trace, steps)
    requires var s := trace[|steps|];
             && i < |s.threads| && j < |s.threads|
             && s.threads[i].Getting? && s.threads[i].get.Back? && s.threads[j].Getting? && s.threads[j].get.Back?
    ensures Inv(trace[|steps|])
    ensures var s := trace[|steps|];
            var a, b := s.threads[i].get, s.threads[j].get;
            && a.at in s.public && b.at in s.public
            && (a.circuit == b.circuit <==> s.threads[i].name == s.threads[j].name && s.epochs[a.at] == s.epochs[b.at])
  {
    RunOrigins(trace, steps, |steps|);
    var s := trace[|steps|];
    assert ThreadOk(s, s.threads[i]) && ThreadOk(s, s.threads[j]);
    var a, b := s.threads[i].get, s.threads[j].get;
    assert Has(s, a.at, s.threads[i].name, a.circuit) && Has(s, b.at, s.threads[j].name, b.circuit);
    if s.threads[i].name == s.threads[j].name && s.epochs[a.at] == s.epochs[b.at] {
      SameEpochAgree(s, a.at, b.at, s.threads[i].name);
    }
  }
}
