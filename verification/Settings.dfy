/** Circuit settings: configured per name, defaulted lazily, and published as a fresh map
    each time under a lock, so that readers need none. */
module Settings {
  import opened Common

  type Name = string

  /** As a user gives it, in milliseconds; zero stands for the default. */
  datatype CommandConfig = CommandConfig(
    timeout: Int64, maxConcurrentRequests: Int64, requestVolumeThreshold: Int64, sleepWindow: Int64, errorPercentThreshold: Int64)

  datatype Settings = Settings(
    timeout: Int64, maxConcurrentRequests: Int64, requestVolumeThreshold: nat, sleepWindow: Int64, errorPercentThreshold: Int64)

  type Table = map<Name, Settings>
  type Commands = map<Name, CommandConfig>

  function Or(value: Int64, default: Int64): Int64 { if value != 0 then value else default }

  /** The defaults are variables of the package, read at each call. */
  function Resolve(c: CommandConfig, defaults: CommandConfig): Settings {
    Settings(
      WrapInt64(Or(c.timeout, defaults.timeout) * MILLISECOND),
      Or(c.maxConcurrentRequests, defaults.maxConcurrentRequests),
      Or(c.requestVolumeThreshold, defaults.requestVolumeThreshold) % TWO_TO_THE_64,
      WrapInt64(Or(c.sleepWindow, defaults.sleepWindow) * MILLISECOND),
      Or(c.errorPercentThreshold, defaults.errorPercentThreshold))
  }

  /** The configured number of milliseconds fits the nanoseconds of a duration. */
  predicate FitsDuration(x: int) { IsInt64(x * MILLISECOND) }

  /** A negative volume becomes a huge one. */
  function AsUint64(x: Int64): nat {
    if x >= 0 then x
    else
      assert IsInt64(x);
      x + TWO_TO_THE_64
  }

  /** `s` is what `c` asks for, completed by the defaults: no field is zero, and a duration
      is off exactly when its nanoseconds do not fit. */
  predicate Usable(s: Settings, c: CommandConfig, defaults: CommandConfig) {
    var timeout, window := Or(c.timeout, defaults.timeout), Or(c.sleepWindow, defaults.sleepWindow);
    && s.maxConcurrentRequests == Or(c.maxConcurrentRequests, defaults.maxConcurrentRequests) != 0
    && s.errorPercentThreshold == Or(c.errorPercentThreshold, defaults.errorPercentThreshold) != 0
    && s.requestVolumeThreshold == AsUint64(Or(c.requestVolumeThreshold, defaults.requestVolumeThreshold)) > 0
    && (s.timeout == timeout * MILLISECOND <==> FitsDuration(timeout))
    && (s.sleepWindow == window * MILLISECOND <==> FitsDuration(window))
    && (FitsDuration(timeout) ==> s.timeout != 0) && (FitsDuration(window) ==> s.sleepWindow != 0)
  }

  /** With usable defaults, any configuration comes out usable. */
  lemma ResolvedIsUsable(c: CommandConfig, defaults: CommandConfig)
    requires Complete(defaults)
    ensures Usable(Resolve(c, defaults), c, defaults)
  {
  }

  predicate Complete(c: CommandConfig) {
    && c.timeout != 0 && c.maxConcurrentRequests != 0 && c.requestVolumeThreshold != 0
    && c.sleepWindow != 0 && c.errorPercentThreshold != 0
  }

  /** A complete configuration is taken as it is; an empty one is the defaults. */
  lemma CompleteOrEmpty(c: CommandConfig, defaults: CommandConfig)
    requires Complete(c) && FitsDuration(c.timeout) && FitsDuration(c.sleepWindow)
    requires 0 <= c.requestVolumeThreshold < TWO_TO_THE_64
    ensures Resolve(c, defaults) == Settings(c.timeout * MILLISECOND, c.maxConcurrentRequests, c.requestVolumeThreshold,
                                             c.sleepWindow * MILLISECOND, c.errorPercentThreshold)
    ensures Resolve(NOTHING, c) == Resolve(c, defaults)
  {
  }

  /** The entries of `cmds` already resolved when those of `todo` are still to come. */
  function Done(cmds: Commands, todo: set<Name>, defaults: CommandConfig): Table {
    map k | k in cmds && k !in todo :: Resolve(cmds[k], defaults)
  }

  function Apply(table: Table, cmds: Commands, defaults: CommandConfig): Table {
    table + Done(cmds, {}, defaults)
  }

  // ---------- one caller at a time ----------

  class SettingsTable {
    var circuitSettings: Table

    constructor ()
      ensures circuitSettings == map[]
    {
      circuitSettings := map[];
    }

    method Configure(cmds: Commands, defaults: CommandConfig)
      modifies this
      ensures circuitSettings == Apply(old(circuitSettings), cmds, defaults)
    {
      var settings := circuitSettings;
      var todo := cmds.Keys;
      while todo != {}
        invariant todo <= cmds.Keys
        invariant settings == circuitSettings + Done(cmds, todo, defaults)
        decreases |todo|
      {
        var k :| k in todo;
        settings := settings[k := Resolve(cmds[k], defaults)];
        todo := todo - {k};
      }
      circuitSettings := settings;
    }

    method ConfigureCommand(name: Name, config: CommandConfig, defaults: CommandConfig)
      modifies this
      ensures circuitSettings == Apply(old(circuitSettings), map[name := config], defaults)
    {
      Configure(map[name := config], defaults);
    }

    /** A name never configured gets the defaults, for good. */
    method GetSettings(name: Name, defaults: CommandConfig) returns (s: Settings)
      modifies this
      ensures circuitSettings == if name in old(circuitSettings) then old(circuitSettings)
                                 else Apply(old(circuitSettings), map[name := NOTHING], defaults)
      ensures name in circuitSettings && s == circuitSettings[name]
      decreases name !in circuitSettings
    {
      if name !in circuitSettings {
        ConfigureCommand(name, NOTHING, defaults);
        s := GetSettings(name, defaults);
      } else {
        s := circuitSettings[name];
      }
    }
  }

  const NOTHING: CommandConfig := CommandConfig(0, 0, 0, 0, 0)

  // ---------- any number of callers ----------

  /** A caller of `Configure` waits for the lock, clones the table, fills its clone one
      name at a time in any order, stores it and unlocks.  A caller of `getSettings` looks
      first, configures the defaults if it finds nothing, and looks again. */
  datatype PC = Look | Wait | Clone | Fill(draft: Table, todo: set<Name>) | Unlock | Back

  datatype Thread = Thread(lookup: Option<Name>, cmds: Commands, pc: PC, looks: nat)

  /** `order` is what the callers that stored a table had configured, in that order. */
  datatype State = State(table: Table, lock: Option<nat>, threads: seq<Thread>, order: seq<Commands>)

  datatype Step = CallConfigure(cmds: Commands) | CallGet(name: Name) | Advance(id: nat, pick: Name)

  const INITIAL: State := State(map[], None, [], [])

  predicate Enabled(s: State, step: Step) {
    step.Advance? ==>
      && step.id < |s.threads|
      && (s.threads[step.id].pc.Wait? ==> s.lock.None?)
      && (s.threads[step.id].pc.Fill? && s.threads[step.id].pc.todo != {} ==> step.pick in s.threads[step.id].pc.todo * s.threads[step.id].cmds.Keys)
      && (s.threads[step.id].pc.Look? ==> s.threads[step.id].lookup.Some?)
  }

  function Move(s: State, id: nat, thread: Thread): State
    requires id < |s.threads|
  {
    s.(threads := s.threads[id := thread])
  }

  function Next(s: State, step: Step, defaults: CommandConfig): State
    requires Enabled(s, step)
  {
    match step
    case CallConfigure(cmds) => s.(threads := s.threads + [Thread(None, cmds, Wait, 0)])
    case CallGet(name) => s.(threads := s.threads + [Thread(Some(name), map[name := NOTHING], Look, 0)])
    case Advance(id, pick) =>
      var t := s.threads[id];
      match t.pc
      case Look => Move(s, id, t.(pc := if t.lookup.value in s.table then Back else Wait, looks := t.looks + 1))
      case Wait => Move(s, id, t.(pc := Clone)).(lock := Some(id))
      case Clone => Move(s, id, t.(pc := Fill(s.table, t.cmds.Keys)))
      case Fill(draft, todo) =>
        if todo != {} then
          Move(s, id, t.(pc := Fill(draft[pick := Resolve(t.cmds[pick], defaults)], todo - {pick})))
        else Move(s, id, t.(pc := Unlock)).(table := draft, order := s.order + [t.cmds])
      case Unlock => Move(s, id, t.(pc := if t.lookup.Some? then Look else Back)).(lock := None)
      case Back => s
  }

  function ApplyAll(order: seq<Commands>, defaults: CommandConfig): Table {
    if order == [] then map[] else Apply(ApplyAll(order[..|order| - 1], defaults), order[|order| - 1], defaults)
  }

  predicate Inside(pc: PC) { pc.Clone? || pc.Fill? || pc.Unlock? }

  predicate ThreadOk(s: State, t: Thread, defaults: CommandConfig) {
    && (t.lookup.Some? ==> t.cmds == map[t.lookup.value := NOTHING])
    && match t.pc
       case Look => t.lookup.Some? && t.looks <= 1 && (t.looks == 1 ==> t.lookup.value in s.table)
       case Fill(draft, todo) =>
         && t.looks == Looked(t) && todo <= t.cmds.Keys
         && draft == s.table + Done(t.cmds, todo, defaults)
       case Unlock => t.looks == Looked(t) && t.cmds.Keys <= s.table.Keys
       case Back => if t.lookup.Some? then 1 <= t.looks <= 2 && t.lookup.value in s.table else t.looks == 0
       case _ => t.looks == Looked(t)
  }

  /** How often a caller has looked that is in `Configure`. */
  function Looked(t: Thread): nat { if t.lookup.Some? then 1 else 0 }

  /** The caller has stored a table: it is past its turn in `Configure`. */
  predicate Stored(t: Thread) {
    t.pc.Unlock? || (t.pc.Look? && t.looks == 1) || (t.pc.Back? && (t.lookup.Some? ==> t.looks == 2))
  }

  function OneIf(b: bool): nat { if b then 1 else 0 }

  /** How many callers have stored exactly the configuration `x`, and how often it is listed. */
  function StoredTimes(threads: seq<Thread>, x: Commands): nat {
    if threads == [] then 0
    else
      var last := threads[|threads| - 1];
      StoredTimes(threads[..|threads| - 1], x) + OneIf(Stored(last) && last.cmds == x)
  }

  function Listed(order: seq<Commands>, x: Commands): nat {
    if order == [] then 0 else Listed(order[..|order| - 1], x) + OneIf(order[|order| - 1] == x)
  }

  ghost predicate Inv(s: State, defaults: CommandConfig) {
    && s.table == ApplyAll(s.order, defaults)
    && (s.lock.Some? ==> s.lock.value < |s.threads|)
    && (forall i :: 0 <= i < |s.threads| ==> (Inside(s.threads[i].pc) <==> s.lock == Some(i)))
    && (forall i :: 0 <= i < |s.threads| ==> ThreadOk(s, s.threads[i], defaults))
  }

  lemma TableKept(s: State, id: nat, pick: Name, defaults: CommandConfig)
    requires Inv(s, defaults) && Enabled(s, Advance(id, pick))
    ensures var s' := Next(s, Advance(id, pick), defaults); s'.table == ApplyAll(s'.order, defaults)
  {
    var t, s' := s.threads[id], Next(s, Advance(id, pick), defaults);
    assert ThreadOk(s, t, defaults);
    if |s'.order| > |s.order| {
      assert s'.order[..|s.order|] == s.order;
    }
  }

  lemma LockKept(s: State, id: nat, pick: Name, defaults: CommandConfig)
    requires Inv(s, defaults) && Enabled(s, Advance(id, pick))
    ensures var s' := Next(s, Advance(id, pick), defaults);
            && (s'.lock.Some? ==> s'.lock.value < |s'.threads|)
            && (forall i :: 0 <= i < |s'.threads| ==> (Inside(s'.threads[i].pc) <==> s'.lock == Some(i)))
  {
  }

  lemma NothingDoneYet(table: Table, cmds: Commands, defaults: CommandConfig)
    ensures table + Done(cmds, cmds.Keys, defaults) == table
  {
  }

  lemma OneMoreDone(table: Table, cmds: Commands, todo: set<Name>, pick: Name, defaults: CommandConfig)
    requires pick in todo && pick in cmds
    ensures (table + Done(cmds, todo, defaults))[pick := Resolve(cmds[pick], defaults)]
         == table + Done(cmds, todo - {pick}, defaults)
  {
  }

  /** The caller of the step, which is in order after it. */
  lemma SelfKept(s: State, id: nat, pick: Name, defaults: CommandConfig)
    requires Inv(s, defaults) && Enabled(s, Advance(id, pick))
    ensures var s' := Next(s, Advance(id, pick), defaults); ThreadOk(s', s'.threads[id], defaults)
  {
    var t := s.threads[id];
    assert ThreadOk(s, t, defaults);
    NothingDoneYet(s.table, t.cmds, defaults);
    if t.pc.Fill? && t.pc.todo != {} {
      OneMoreDone(s.table, t.cmds, t.pc.todo, pick, defaults);
    }
  }

  /** The others: only they who are filling look at the table as a whole, and there is just
      one inside the lock. */
  lemma OtherKept(s: State, id: nat, pick: Name, j: nat, defaults: CommandConfig)
    requires Inv(s, defaults) && Enabled(s, Advance(id, pick)) && j < |s.threads| && j != id
    ensures var s' := Next(s, Advance(id, pick), defaults);
            ThreadOk(s', s'.threads[j], defaults) && s.table.Keys <= s'.table.Keys
  {
    assert ThreadOk(s, s.threads[id], defaults) && ThreadOk(s, s.threads[j], defaults);
    assert Inside(s.threads[id].pc) ==> !Inside(s.threads[j].pc);
  }

  lemma AdvanceKeepsInv(s: State, id: nat, pick: Name, defaults: CommandConfig)
    requires Inv(s, defaults) && Enabled(s, Advance(id, pick))
    ensures Inv(Next(s, Advance(id, pick), defaults), defaults)
  {
    var s' := Next(s, Advance(id, pick), defaults);
    TableKept(s, id, pick, defaults);
    LockKept(s, id, pick, defaults);
    SelfKept(s, id, pick, defaults);
    forall j | 0 <= j < |s'.threads| ensures ThreadOk(s', s'.threads[j], defaults) {
      if j != id {
        OtherKept(s, id, pick, j, defaults);
      }
    }
  }

  lemma CallKeepsInv(s: State, step: Step, defaults: CommandConfig)
    requires Inv(s, defaults) && !step.Advance?
    ensures Inv(Next(s, step, defaults), defaults)
  {
    var s' := Next(s, step, defaults);
    forall j | 0 <= j < |s'.threads| ensures ThreadOk(s', s'.threads[j], defaults) {
      assert j < |s.threads| ==> ThreadOk(s, s.threads[j], defaults);
    }
  }

  lemma NextKeepsInv(s: State, step: Step, defaults: CommandConfig)
    requires Inv(s, defaults) && Enabled(s, step)
    ensures Inv(Next(s, step, defaults), defaults)
  {
    if step.Advance? {
      AdvanceKeepsInv(s, step.id, step.pick, defaults);
    } else {
      CallKeepsInv(s, step, defaults);
    }
  }

  lemma NextKeepsNames(s: State, step: Step, defaults: CommandConfig)
    requires Inv(s, defaults) && Enabled(s, step)
    ensures s.table.Keys <= Next(s, step, defaults).table.Keys
  {
    assert step.Advance? ==> ThreadOk(s, s.threads[step.id], defaults);
  }

  predicate StepAt(trace: seq<State>, steps: seq<Step>, defaults: CommandConfig, k: nat)
    requires k < |steps| == |trace| - 1
  {
    Enabled(trace[k], steps[k]) && trace[k + 1] == Next(trace[k], steps[k], defaults)
  }

  ghost predicate IsRun(trace: seq<State>, steps: seq<Step>, defaults: CommandConfig) {
    && |trace| == |steps| + 1
    && trace[0] == INITIAL
    && forall k :: 0 <= k < |steps| ==> StepAt(trace, steps, defaults, k)
  }

  lemma {:induction false} RunInv(trace: seq<State>, steps: seq<Step>, defaults: CommandConfig, n: nat)
    requires IsRun(trace, steps, defaults) && n <= |steps|
    ensures Inv(trace[n], defaults)
  {
    if n > 0 {
      RunInv(trace, steps, defaults, n - 1);
      assert StepAt(trace, steps, defaults, n - 1);
      NextKeepsInv(trace[n - 1], steps[n - 1], defaults);
    }
  }

  lemma {:induction false} StoredAfterUpdate(threads: seq<Thread>, id: nat, t: Thread, x: Commands)
    requires id < |threads|
    ensures StoredTimes(threads[id := t], x) + OneIf(Stored(threads[id]) && threads[id].cmds == x)
         == StoredTimes(threads, x) + OneIf(Stored(t) && t.cmds == x)
  {
    var init := threads[..|threads| - 1];
    if id < |init| {
      StoredAfterUpdate(init, id, t, x);
      assert threads[id := t][..|threads| - 1] == init[id := t];
    } else {
      assert threads[id := t][..|threads| - 1] == init;
    }
  }

  /** A step lists the caller exactly if it stores. */
  lemma StoresAndLists(s: State, id: nat, pick: Name, defaults: CommandConfig)
    requires Enabled(s, Advance(id, pick)) && ThreadOk(s, s.threads[id], defaults)
    ensures var t, s' := s.threads[id], Next(s, Advance(id, pick), defaults);
            && s'.threads == s.threads[id := s'.threads[id]] && s'.threads[id].cmds == t.cmds
            && (Stored(t) ==> Stored(s'.threads[id]))
            && s'.order == if Stored(s'.threads[id]) && !Stored(t) then s.order + [t.cmds] else s.order
  {
  }

  lemma ListedAppend(order: seq<Commands>, cmds: Commands, x: Commands)
    ensures Listed(order + [cmds], x) == Listed(order, x) + OneIf(cmds == x)
  {
    assert (order + [cmds])[..|order|] == order;
  }

  lemma StoredAppend(threads: seq<Thread>, t: Thread, x: Commands)
    requires !Stored(t)
    ensures StoredTimes(threads + [t], x) == StoredTimes(threads, x)
  {
    assert (threads + [t])[..|threads|] == threads;
  }

  lemma AdvanceLists(threads: seq<Thread>, id: nat, t: Thread, order: seq<Commands>, x: Commands)
    requires id < |threads| && t.cmds == threads[id].cmds && (Stored(threads[id]) ==> Stored(t))
    requires Listed(order, x) == StoredTimes(threads, x)
    ensures Listed(if Stored(t) && !Stored(threads[id]) then order + [t.cmds] else order, x) == StoredTimes(threads[id := t], x)
  {
    StoredAfterUpdate(threads, id, t, x);
    ListedAppend(order, t.cmds, x);
  }

  lemma StepLists(s: State, step: Step, defaults: CommandConfig, x: Commands)
    requires Enabled(s, step) && Listed(s.order, x) == StoredTimes(s.threads, x)
    requires step.Advance? ==> ThreadOk(s, s.threads[step.id], defaults)
    ensures Listed(Next(s, step, defaults).order, x) == StoredTimes(Next(s, step, defaults).threads, x)
  {
    var s' := Next(s, step, defaults);
    match step
    case Advance(id, pick) =>
      StoresAndLists(s, id, pick, defaults);
      AdvanceLists(s.threads, id, s'.threads[id], s.order, x);
    case _ => StoredAppend(s.threads, s'.threads[|s.threads|], x);
  }

  lemma {:induction false} RunLists(trace: seq<State>, steps: seq<Step>, defaults: CommandConfig, n: nat, x: Commands)
    requires IsRun(trace, steps, defaults) && n <= |steps|
    ensures Listed(trace[n].order, x) == StoredTimes(trace[n].threads, x)
  {
    if n > 0 {
      RunLists(trace, steps, defaults, n - 1, x);
      RunInv(trace, steps, defaults, n - 1);
      assert StepAt(trace, steps, defaults, n - 1);
      StepLists(trace[n - 1], steps[n - 1], defaults, x);
    }
  }

  /** The callers of these steps, in the order they called: what they look up, if anything,
      and what they configure. */
  function CallersOf(steps: seq<Step>): seq<(Option<Name>, Commands)> {
    if steps == [] then []
    else
      CallersOf(steps[..|steps| - 1]) +
      match steps[|steps| - 1]
      case CallConfigure(cmds) => [(None, cmds)]
      case CallGet(name) => [(Some(name), map[name := NOTHING])]
      case Advance(_, _) => []
  }

  predicate AreCallers(threads: seq<Thread>, callers: seq<(Option<Name>, Commands)>) {
    |threads| == |callers| && forall i :: 0 <= i < |threads| ==> (threads[i].lookup, threads[i].cmds) == callers[i]
  }

  lemma StepKeepsCallers(s: State, step: Step, defaults: CommandConfig, before: seq<Step>)
    requires Enabled(s, step) && AreCallers(s.threads, CallersOf(before))
    ensures AreCallers(Next(s, step, defaults).threads, CallersOf(before + [step]))
  {
    assert (before + [step])[..|before|] == before;
  }

  /** Every call is carried out by a caller of its own, and there are no others. */
  lemma {:induction false} CallersAreTheCalls(trace: seq<State>, steps: seq<Step>, defaults: CommandConfig, n: nat)
    requires IsRun(trace, steps, defaults) && n <= |steps|
    ensures AreCallers(trace[n].threads, CallersOf(steps[..n]))
  {
    if n > 0 {
      CallersAreTheCalls(trace, steps, defaults, n - 1);
      assert StepAt(trace, steps, defaults, n - 1);
      StepKeepsCallers(trace[n - 1], steps[n - 1], defaults, steps[..n - 1]);
      assert steps[..n] == steps[..n - 1] + [steps[n - 1]];
    }
  }

  /** At every moment of every interleaving the table is what the calls that stored so far,
      each of them once, give when applied whole, one after the other, in the order they
      held the lock. */
  lemma TableIsLinearizable(trace: seq<State>, steps: seq<Step>, defaults: CommandConfig, n: nat)
    requires IsRun(trace, steps, defaults) && n <= |steps|
    ensures trace[n].table == ApplyAll(trace[n].order, defaults)
    ensures forall x :: Listed(trace[n].order, x) == StoredTimes(trace[n].threads, x)
  {
    RunInv(trace, steps, defaults, n);
    forall x ensures Listed(trace[n].order, x) == StoredTimes(trace[n].threads, x) {
      RunLists(trace, steps, defaults, n, x);
    }
  }

  /** The last configuration of a name, in lock order. */
  function LastFor(order: seq<Commands>, name: Name): Option<CommandConfig> {
    if order == [] then None
    else
      var last := order[|order| - 1];
      if name in last then Some(last[name]) else LastFor(order[..|order| - 1], name)
  }

  lemma {:induction false} LastWins(order: seq<Commands>, name: Name, defaults: CommandConfig)
    ensures name in ApplyAll(order, defaults) <==> LastFor(order, name).Some?
    ensures name in ApplyAll(order, defaults) ==>
              ApplyAll(order, defaults)[name] == Resolve(LastFor(order, name).value, defaults)
  {
    if order != [] {
      LastWins(order[..|order| - 1], name, defaults);
    }
  }

  /** So the table holds exactly the names that some caller stored, each with what its last
      caller asked for, and with usable defaults nothing in it is zero. */
  lemma EntriesAreUsable(trace: seq<State>, steps: seq<Step>, defaults: CommandConfig, n: nat, name: Name)
    requires IsRun(trace, steps, defaults) && n <= |steps| && Complete(defaults)
    ensures var s, last := trace[n], LastFor(trace[n].order, name);
            && (name in s.table <==> last.Some?)
            && (name in s.table ==> s.table[name] == Resolve(last.value, defaults) && Usable(s.table[name], last.value, defaults))
  {
    TableIsLinearizable(trace, steps, defaults, n);
    LastWins(trace[n].order, name, defaults);
    if name in trace[n].table {
      ResolvedIsUsable(LastFor(trace[n].order, name).value, defaults);
    }
  }

  lemma StepKeepsNames(trace: seq<State>, steps: seq<Step>, defaults: CommandConfig, n: nat)
    requires IsRun(trace, steps, defaults) && n < |steps|
    ensures trace[n].table.Keys <= trace[n + 1].table.Keys
  {
    RunInv(trace, steps, defaults, n);
    assert StepAt(trace, steps, defaults, n);
    NextKeepsNames(trace[n], steps[n], defaults);
  }

  lemma {:induction false} NamesNeverDisappear(trace: seq<State>, steps: seq<Step>, defaults: CommandConfig, m: nat, n: nat)
    requires IsRun(trace, steps, defaults) && m <= n <= |steps|
    ensures trace[m].table.Keys <= trace[n].table.Keys
  {
    if m < n {
      NamesNeverDisappear(trace, steps, defaults, m, n - 1);
      StepKeepsNames(trace, steps, defaults, n - 1);
    }
  }

  /** `getSettings` calls itself at most once: a second look always finds the name. */
  lemma AtMostTwoLooks(trace: seq<State>, steps: seq<Step>, defaults: CommandConfig, n: nat, id: nat)
    requires IsRun(trace, steps, defaults) && n <= |steps| && id < |trace[n].threads|
    ensures var s, t := trace[n], trace[n].threads[id];
            t.looks <= 2 && (t.lookup.Some? && (t.pc.Back? || (t.pc.Look? && t.looks == 1)) ==> t.lookup.value in s.table)
  {
    RunInv(trace, steps, defaults, n);
    assert ThreadOk(trace[n], trace[n].threads[id], defaults);
  }
}
