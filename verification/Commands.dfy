/** The life of commands: any number of calls to `DoC`, the goroutines they start, and the
    recycled tickets, channels and timers they pass around, as one step machine.

    A step is one atomic action of one call or goroutine, or of the world around them: the
    clock, contexts, user code, the runtime's object pools, a flush.  A run is any
    interleaving.  Whether the breaker allows a call, which ready case a `select` takes,
    whether a pool hands out, makes or drops an object, and what user code returns are all
    left open. */
module Commands {
  import opened Common
  import M = Metrics

  // ---------- errors ----------

  /** `Wrapped` is the error of a failed fallback, which wraps two others. */
  datatype Error =
    | CircuitOpen | MaxConcurrency | Timeout | Canceled | DeadlineExceeded
    | User(id: nat)
    | Wrapped(fallback: Error, run: Error)

  datatype Result = Nil | Fail(err: Error)

  /** `errors.Is` */
  predicate Is(err: Error, target: Error) {
    err == target || (err.Wrapped? && (Is(err.fallback, target) || Is(err.run, target)))
  }

  /** The event an error is reported as, given how the context stands. */
  function Classify(err: Error, ctx: Option<Error>): M.Primary {
    if Is(err, CircuitOpen) then M.ShortCircuit
    else if Is(err, MaxConcurrency) then M.Rejected
    else if Is(err, Timeout) then M.TimedOut
    else if ctx == Some(Canceled) then M.ContextCanceled
    else if ctx == Some(DeadlineExceeded) then M.ContextDeadlineExceeded
    else M.Failure
  }

  // ---------- the state ----------

  /** One circuit object.  `tickets` is how many are in its channel, `reports` every event
      ever reported to it. */
  datatype Circuit = Circuit(name: string, max: nat, tickets: nat, reports: seq<M.Primary>)

  datatype Timer = Timer(deadline: int, armed: bool, tick: bool)

  /** What a call does with its ticket's return behind it. */
  datatype Then = Release(result: Result) | GiveUp(err: Error)

  datatype PC =
    | Start | Asking | Taking | Acquiring | Spawning | Arming | Selecting
    | Returning(next: Then)
    | Releasing(result: Result)
    | Failing(err: Error)
    | FallingBack(err: Error, primary: M.Primary)
    | Reporting(primary: M.Primary, secondary: M.Secondary, result: Result)
    | Leaving(result: Result)
    | Back(result: Result)

  /** The goroutine of the run function, with the channel it will send to. */
  datatype Run = NotStarted | Running(channel: nat) | Finished(channel: nat, result: Result) | Sent(result: Result)

  /** How the attempt to run came to its end. */
  datatype Ending = Pending | Refused | NoTicket | RunEnded | ContextEnded | TimerEnded

  /** `ctx` is the error of the context once it has ended, and `judged` what that was when the
      call classified its own error. */
  datatype Call = Call(
    name: string, hasFallback: bool, timeout: nat, pc: PC, circuit: nat, ticket: bool,
    channel: Option<nat>, timer: Option<nat>, run: Run, ctx: Option<Error>,
    deadline: int, endedAt: int, ending: Ending, received: Option<Result>, judged: Option<Error>,
    fallback: Option<Result>, fallbackCalls: nat, reported: Option<(M.Primary, M.Secondary)>)

  /** A channel holds at most one result.  `freeChannels` and `freeTimers` are the contents
      of the runtime's object pools. */
  datatype State = State(
    clock: int, circuits: seq<Circuit>, registry: map<string, nat>,
    channels: seq<Option<Result>>, freeChannels: multiset<nat>,
    timers: seq<Timer>, freeTimers: multiset<nat>, calls: seq<Call>)

  const INITIAL: State := State(0, [], map[], [], multiset{}, [], multiset{}, [])

  datatype Step =
    // the world
    | NewCall(name: string, hasFallback: bool, timeout: nat)
    | Tick(clock: int)
    | EndContext(id: nat, err: Error)
    | RunReturns(id: nat, result: Result)
    | RunSends(id: nat)
    | TimerFires(timer: nat)
    | DropChannel(channel: nat)
    | DropTimer(timer: nat)
    | Flush
    // a call
    | GetCircuit(id: nat, max: nat)
    | AllowRequest(id: nat, allowed: bool)
    | TakeTicket(id: nat)
    | AcquireChannel(id: nat, reuse: Option<nat>)
    | Spawn(id: nat)
    | ArmTimer(id: nat, reuse: Option<nat>)
    | ReceiveResult(id: nat)
    | ReceiveDone(id: nat)
    | ReceiveTick(id: nat)
    | ReturnTicket(id: nat)
    | ReleaseChannel(id: nat)
    | ClassifyError(id: nat)
    | TryFallback(id: nat, result: Result)
    | ReportEvent(id: nat)
    | ReleaseTimer(id: nat)

  predicate HasCall(step: Step) {
    !(step.NewCall? || step.Tick? || step.TimerFires? || step.DropChannel? || step.DropTimer? || step.Flush?)
  }

  // ---------- which steps are possible ----------

  /** Sending on a full channel blocks, and so does returning a ticket to a full pool. */
  predicate Enabled(s: State, step: Step) {
    (HasCall(step) ==> step.id < |s.calls|) &&
    match step
    case NewCall(_, _, _) => true
    case Tick(clock) => clock >= s.clock
    case EndContext(id, err) => s.calls[id].ctx.None? && (err.Canceled? || err.DeadlineExceeded?)
    case RunReturns(id, _) => s.calls[id].run.Running?
    case RunSends(id) =>
      var run := s.calls[id].run;
      run.Finished? && run.channel < |s.channels| && s.channels[run.channel].None?
    case TimerFires(t) => t < |s.timers| && s.timers[t].armed && s.clock >= s.timers[t].deadline
    case DropChannel(ch) => s.freeChannels[ch] > 0
    case DropTimer(t) => s.freeTimers[t] > 0
    case Flush => true
    case GetCircuit(id, _) => s.calls[id].pc.Start?
    case AllowRequest(id, _) => s.calls[id].pc.Asking?
    case TakeTicket(id) => s.calls[id].pc.Taking? && s.calls[id].circuit < |s.circuits|
    case AcquireChannel(id, reuse) => s.calls[id].pc.Acquiring? && (reuse.Some? ==> s.freeChannels[reuse.value] > 0)
    case Spawn(id) => s.calls[id].pc.Spawning? && s.calls[id].channel.Some?
    case ArmTimer(id, reuse) =>
      s.calls[id].pc.Arming? && (reuse.Some? ==> s.freeTimers[reuse.value] > 0 && reuse.value < |s.timers|)
    case ReceiveResult(id) =>
      var c := s.calls[id];
      c.pc.Selecting? && c.channel.Some? && c.channel.value < |s.channels| && s.channels[c.channel.value].Some?
    case ReceiveDone(id) => s.calls[id].pc.Selecting? && s.calls[id].ctx.Some?
    case ReceiveTick(id) =>
      var c := s.calls[id];
      c.pc.Selecting? && c.timer.Some? && c.timer.value < |s.timers| && s.timers[c.timer.value].tick
    case ReturnTicket(id) =>
      var c := s.calls[id];
      c.pc.Returning? && c.circuit < |s.circuits| && s.circuits[c.circuit].tickets < s.circuits[c.circuit].max
    case ReleaseChannel(id) => s.calls[id].pc.Releasing? && s.calls[id].channel.Some?
    case ClassifyError(id) => s.calls[id].pc.Failing?
    case TryFallback(id, _) => s.calls[id].pc.FallingBack?
    case ReportEvent(id) => s.calls[id].pc.Reporting? && s.calls[id].circuit < |s.circuits|
    case ReleaseTimer(id) => s.calls[id].pc.Leaving? && s.calls[id].timer.Some? && s.calls[id].timer.value < |s.timers|
  }

  // ---------- what they do ----------

  function Put(s: State, id: nat, c: Call): State
    requires id < |s.calls|
  {
    s.(calls := s.calls[id := c])
  }

  function PutCircuit(s: State, k: nat, circuit: Circuit): State
    requires k < |s.circuits|
  {
    s.(circuits := s.circuits[k := circuit])
  }

  function NextWorld(s: State, step: Step): State
    requires Enabled(s, step) && !HasCall(step)
  {
    match step
    case NewCall(name, hasFallback, timeout) =>
      s.(calls := s.calls + [Call(name, hasFallback, timeout, Start, 0, false, None, None, NotStarted, None,
                                  0, 0, Pending, None, None, None, 0, None)])
    case Tick(clock) => s.(clock := clock)
    case TimerFires(t) => s.(timers := s.timers[t := s.timers[t].(armed := false, tick := true)])
    case DropChannel(ch) => s.(freeChannels := s.freeChannels - multiset{ch})
    case DropTimer(t) => s.(freeTimers := s.freeTimers - multiset{t})
    case Flush => s.(registry := map[])
  }

  /** A call that failed with `err`, after trying its fallback, which returned `result`. */
  function AfterFallback(c: Call, err: Error, primary: M.Primary, result: Result): Call {
    if !c.hasFallback then c.(pc := Reporting(primary, M.NoFallback, Fail(err)))
    else c.(fallback := Some(result), fallbackCalls := c.fallbackCalls + 1,
            pc := match result
              case Nil => Reporting(primary, M.FallbackSuccess, Nil)
              case Fail(failure) => Reporting(primary, M.FallbackFailure, Fail(Wrapped(failure, err))))
  }

  /** The call of the step after the step. */
  function NextCall(s: State, step: Step): Call
    requires Enabled(s, step) && HasCall(step)
  {
    var c := s.calls[step.id];
    match step
    case EndContext(_, err) => c.(ctx := Some(err))
    case RunReturns(_, result) => c.(run := Finished(c.run.channel, result))
    case RunSends(_) => c.(run := Sent(c.run.result))
    case GetCircuit(_, _) =>
      c.(pc := Asking, circuit := if c.name in s.registry then s.registry[c.name] else |s.circuits|)
    case AllowRequest(_, allowed) =>
      if allowed then c.(pc := Taking) else c.(pc := Failing(CircuitOpen), ending := Refused)
    case TakeTicket(_) =>
      if s.circuits[c.circuit].tickets > 0 then c.(pc := Acquiring, ticket := true)
      else c.(pc := Failing(MaxConcurrency), ending := NoTicket)
    case AcquireChannel(_, reuse) =>
      c.(pc := Spawning, channel := Some(if reuse.Some? then reuse.value else |s.channels|))
    case Spawn(_) => c.(pc := Arming, run := Running(c.channel.value))
    case ArmTimer(_, reuse) =>
      c.(pc := Selecting, timer := Some(if reuse.Some? then reuse.value else |s.timers|), deadline := s.clock + c.timeout)
    case ReceiveResult(_) =>
      var result := s.channels[c.channel.value].value;
      c.(pc := Returning(Release(result)), received := Some(result), ending := RunEnded, endedAt := s.clock)
    case ReceiveDone(_) => c.(pc := Returning(GiveUp(c.ctx.value)), ending := ContextEnded, endedAt := s.clock)
    case ReceiveTick(_) => c.(pc := Returning(GiveUp(Timeout)), ending := TimerEnded, endedAt := s.clock)
    case ReturnTicket(_) =>
      c.(ticket := false,
         pc := match c.pc.next case Release(result) => Releasing(result) case GiveUp(err) => Failing(err))
    case ReleaseChannel(_) =>
      c.(channel := None,
         pc := match c.pc.result case Nil => Reporting(M.Success, M.NoFallback, Nil) case Fail(err) => Failing(err))
    case ClassifyError(_) => c.(pc := FallingBack(c.pc.err, Classify(c.pc.err, c.ctx)), judged := c.ctx)
    case TryFallback(_, result) => AfterFallback(c, c.pc.err, c.pc.primary, result)
    case ReportEvent(_) =>
      c.(reported := Some((c.pc.primary, c.pc.secondary)),
         pc := if c.timer.Some? then Leaving(c.pc.result) else Back(c.pc.result))
    case ReleaseTimer(_) => c.(timer := None, pc := Back(c.pc.result))
  }

  /** The shared objects after a step of a call. */
  function NextShared(s: State, step: Step): State
    requires Enabled(s, step) && HasCall(step)
  {
    var c := s.calls[step.id];
    match step
    case RunSends(_) => s.(channels := s.channels[c.run.channel := Some(c.run.result)])
    case GetCircuit(_, max) =>
      if c.name in s.registry then s
      else s.(circuits := s.circuits + [Circuit(c.name, max, max, [])], registry := s.registry[c.name := |s.circuits|])
    case TakeTicket(_) =>
      var circuit := s.circuits[c.circuit];
      if circuit.tickets > 0 then PutCircuit(s, c.circuit, circuit.(tickets := circuit.tickets - 1)) else s
    case AcquireChannel(_, reuse) =>
      if reuse.Some? then s.(freeChannels := s.freeChannels - multiset{reuse.value})
      else s.(channels := s.channels + [None])
    case ArmTimer(_, reuse) =>
      if reuse.Some? then
        s.(freeTimers := s.freeTimers - multiset{reuse.value},
           timers := s.timers[reuse.value := Timer(s.clock + c.timeout, true, s.timers[reuse.value].tick)])
      else s.(timers := s.timers + [Timer(s.clock + c.timeout, true, false)])
    case ReceiveResult(_) => s.(channels := s.channels[c.channel.value := None])
    case ReceiveTick(_) => s.(timers := s.timers[c.timer.value := s.timers[c.timer.value].(tick := false)])
    case ReturnTicket(_) =>
      var circuit := s.circuits[c.circuit];
      PutCircuit(s, c.circuit, circuit.(tickets := circuit.tickets + 1))
    case ReleaseChannel(_) => s.(freeChannels := s.freeChannels + multiset{c.channel.value})
    case ReportEvent(_) =>
      var circuit := s.circuits[c.circuit];
      PutCircuit(s, c.circuit, circuit.(reports := circuit.reports + [c.pc.primary]))
    case ReleaseTimer(_) =>
      s.(timers := s.timers[c.timer.value := s.timers[c.timer.value].(armed := false, tick := false)],
         freeTimers := s.freeTimers + multiset{c.timer.value})
    case _ => s
  }

  function Next(s: State, step: Step): State
    requires Enabled(s, step)
  {
    if HasCall(step) then Put(NextShared(s, step), step.id, NextCall(s, step)) else NextWorld(s, step)
  }

  // ---------- each call by itself ----------

  predicate BeforeRun(pc: PC) { pc.Start? || pc.Asking? || pc.Taking? || pc.Acquiring? || pc.Spawning? }

  /** The error a call is failing with is the one its ending produced. */
  predicate CausedBy(c: Call, err: Error) {
    match c.ending
    case Pending => false
    case Refused => err == CircuitOpen && c.run.NotStarted?
    case NoTicket => err == MaxConcurrency && c.run.NotStarted?
    case RunEnded => c.received == Some(Fail(err))
    case ContextEnded => c.ctx == Some(err) && c.received.None?
    case TimerEnded => err == Timeout && c.received.None?
  }

  /** The error passes for one of the library's own: it is or wraps one. */
  predicate PassesForOwn(err: Error) { Is(err, CircuitOpen) || Is(err, MaxConcurrency) || Is(err, Timeout) }

  /** An error that the run itself returned is reported as what it passes for, or else by how
      the context stood when it was classified. */
  predicate RunEventFits(result: Result, judged: Option<Error>, primary: M.Primary) {
    match result
    case Nil => primary.Success?
    case Fail(err) =>
      && !primary.Success? && !primary.Unrecognised?
      && (primary.ShortCircuit? <==> Is(err, CircuitOpen))
      && (primary.Rejected? <==> !Is(err, CircuitOpen) && Is(err, MaxConcurrency))
      && (primary.TimedOut? <==> !Is(err, CircuitOpen) && !Is(err, MaxConcurrency) && Is(err, Timeout))
      && (primary.ContextCanceled? <==> !PassesForOwn(err) && judged == Some(Canceled))
      && (primary.ContextDeadlineExceeded? <==> !PassesForOwn(err) && judged == Some(DeadlineExceeded))
      && (primary.Failure? <==> !PassesForOwn(err) && judged.None?)
  }

  /** What the event reported for a call says about how it ended. */
  predicate EventFits(c: Call, primary: M.Primary) {
    match c.ending
    case Pending => false
    case Refused => primary.ShortCircuit?
    case NoTicket => primary.Rejected?
    case RunEnded => c.received.Some? && RunEventFits(c.received.value, c.judged, primary)
    case ContextEnded =>
      c.ctx.Some? && primary == if c.ctx.value.Canceled? then M.ContextCanceled else M.ContextDeadlineExceeded
    case TimerEnded => primary.TimedOut?
  }

  /** What a call returns: nil if its run or its fallback did, otherwise the error it failed
      with, wrapped together with that of its fallback if it has one. */
  predicate Yields(c: Call, result: Result) {
    match result
    case Nil => c.received == Some(Nil) || c.fallback == Some(Nil)
    case Fail(err) =>
      && c.received != Some(Nil)
      && match c.fallback
         case None => CausedBy(c, err)
         case Some(Nil) => false
         case Some(Fail(failure)) => err.Wrapped? && err.fallback == failure && CausedBy(c, err.run)
  }

  /** What a finished call returns, reports and has done, all from how it ended. */
  predicate Accounted(c: Call, primary: M.Primary, secondary: M.Secondary, result: Result) {
    && EventFits(c, primary)
    && (primary.Success? <==> c.received == Some(Nil))
    && Yields(c, result)
    && (c.fallback.Some? <==> c.hasFallback && c.received != Some(Nil))
    && c.fallbackCalls == (if c.fallback.Some? then 1 else 0)
    && secondary == if c.fallback.None? then M.NoFallback
                    else if c.fallback.value.Nil? then M.FallbackSuccess else M.FallbackFailure
  }

  predicate PcOk(c: Call) {
    match c.pc
    case Returning(Release(result)) => c.ending.RunEnded? && c.received == Some(result) && c.fallbackCalls == 0
    case Returning(GiveUp(err)) => CausedBy(c, err) && c.received.None? && c.fallbackCalls == 0
    case Releasing(result) => c.ending.RunEnded? && c.received == Some(result) && c.fallbackCalls == 0
    case Failing(err) => CausedBy(c, err) && c.received != Some(Nil) && c.fallbackCalls == 0
    case FallingBack(err, primary) =>
      CausedBy(c, err) && c.received != Some(Nil) && c.fallbackCalls == 0 && EventFits(c, primary) && !primary.Success?
    case Reporting(primary, secondary, result) => Accounted(c, primary, secondary, result)
    case Leaving(result) => c.reported.Some? && Accounted(c, c.reported.value.0, c.reported.value.1, result)
    case Back(result) => c.reported.Some? && Accounted(c, c.reported.value.0, c.reported.value.1, result)
    case _ => c.ending.Pending? && c.received.None? && c.fallbackCalls == 0
  }

  predicate Local(c: Call) {
    && PcOk(c)
    && (c.ctx.Some? ==> c.ctx.value.Canceled? || c.ctx.value.DeadlineExceeded?)
    && (c.fallback.Some? ==> c.pc.Reporting? || c.pc.Leaving? || c.pc.Back?)
    && (c.reported.Some? <==> c.pc.Leaving? || c.pc.Back?)
    && (c.ticket <==> c.pc.Acquiring? || c.pc.Spawning? || c.pc.Arming? || c.pc.Selecting? || c.pc.Returning?)
    && (BeforeRun(c.pc) || c.ending.Refused? || c.ending.NoTicket? ==> c.run.NotStarted?)
    && (c.pc.Arming? || c.pc.Selecting? || c.pc.Returning? || c.pc.Releasing? ==> !c.run.NotStarted?)
    // the channel
    && (c.pc.Start? || c.pc.Asking? || c.pc.Taking? || c.pc.Acquiring? ==> c.channel.None?)
    && (c.pc.Spawning? || c.pc.Arming? || c.pc.Selecting? || c.pc.Returning? || c.pc.Releasing? ==> c.channel.Some?)
    && (c.run.Running? || c.run.Finished? ==> c.channel == Some(c.run.channel))
    && (c.received.Some? ==> c.run == Sent(c.received.value))
    && (c.received.Some? <==> c.ending.RunEnded?)
    && (!BeforeRun(c.pc) && c.channel.None? && !c.run.NotStarted? ==> c.received.Some?)
    // the timer
    && (BeforeRun(c.pc) || c.pc.Arming? || c.pc.Back? ==> c.timer.None?)
    && (c.pc.Selecting? || c.pc.Returning? || c.pc.Releasing? || c.pc.Leaving? ==> c.timer.Some?)
    && (c.ending.TimerEnded? ==> c.endedAt >= c.deadline)
  }

  /** A tick only reaches a call whose deadline has passed, as far as this call can tell. */
  predicate TickIsDue(s: State, step: Step)
    requires Enabled(s, step)
  {
    step.ReceiveTick? ==> s.clock >= s.calls[step.id].deadline
  }

  predicate ResultIsOwn(s: State, step: Step)
    requires Enabled(s, step)
  {
    step.ReceiveResult? ==>
      s.calls[step.id].run == Sent(s.channels[s.calls[step.id].channel.value].value)
  }

  lemma ClassifyFits(c: Call, err: Error)
    requires CausedBy(c, err) && c.received != Some(Nil)
    requires c.ctx.Some? ==> c.ctx.value.Canceled? || c.ctx.value.DeadlineExceeded?
    ensures EventFits(c.(judged := c.ctx), Classify(err, c.ctx)) && !Classify(err, c.ctx).Success?
  {
  }

  lemma LocalKeptEarly(s: State, step: Step)
    requires Enabled(s, step) && HasCall(step) && Local(s.calls[step.id])
    requires step.GetCircuit? || step.AllowRequest? || step.TakeTicket? || step.AcquireChannel?
    ensures Local(NextCall(s, step))
  {
  }

  lemma LocalKeptRunning(s: State, step: Step)
    requires Enabled(s, step) && HasCall(step) && Local(s.calls[step.id])
    requires step.Spawn? || step.ArmTimer? || step.RunReturns? || step.RunSends?
    ensures Local(NextCall(s, step))
  {
  }

  /** Ending the context changes nothing that a call has already concluded from it. */
  lemma LocalKeptContext(s: State, step: Step)
    requires Enabled(s, step) && HasCall(step) && Local(s.calls[step.id]) && step.EndContext?
    ensures Local(NextCall(s, step))
  {
  }

  lemma LocalKeptMiddle(s: State, step: Step)
    requires Enabled(s, step) && HasCall(step) && Local(s.calls[step.id])
    requires step.ReceiveResult? || step.ReceiveDone? || step.ReceiveTick? || step.ReturnTicket? || step.ReleaseChannel?
    requires TickIsDue(s, step) && ResultIsOwn(s, step)
    ensures Local(NextCall(s, step))
  {
  }

  lemma LocalKeptClassify(s: State, step: Step)
    requires Enabled(s, step) && HasCall(step) && Local(s.calls[step.id]) && step.ClassifyError?
    ensures Local(NextCall(s, step))
  {
    ClassifyFits(s.calls[step.id], s.calls[step.id].pc.err);
  }

  lemma FallbackKeepsLocal(c: Call, result: Result)
    requires Local(c) && c.pc.FallingBack?
    ensures Local(AfterFallback(c, c.pc.err, c.pc.primary, result))
  {
    assert PcOk(AfterFallback(c, c.pc.err, c.pc.primary, result));
  }

  lemma LocalKeptFallback(s: State, step: Step)
    requires Enabled(s, step) && step.TryFallback? && Local(s.calls[step.id])
    ensures Local(NextCall(s, step))
  {
    FallbackKeepsLocal(s.calls[step.id], step.result);
  }

  lemma LocalKeptReport(s: State, step: Step)
    requires Enabled(s, step) && HasCall(step) && Local(s.calls[step.id]) && step.ReportEvent?
    ensures Local(NextCall(s, step))
  {
  }

  lemma LocalKeptLast(s: State, step: Step)
    requires Enabled(s, step) && HasCall(step) && Local(s.calls[step.id]) && step.ReleaseTimer?
    ensures Local(NextCall(s, step))
  {
  }

  lemma LocalKept(s: State, step: Step)
    requires Enabled(s, step) && HasCall(step) && Local(s.calls[step.id])
    requires TickIsDue(s, step) && ResultIsOwn(s, step)
    ensures Local(NextCall(s, step))
  {
    if step.ReceiveResult? || step.ReceiveDone? || step.ReceiveTick? || step.ReturnTicket? || step.ReleaseChannel? {
      LocalKeptMiddle(s, step);
    } else if step.ClassifyError? {
      LocalKeptClassify(s, step);
    } else if step.TryFallback? {
      LocalKeptFallback(s, step);
    } else if step.ReportEvent? {
      LocalKeptReport(s, step);
    } else if step.ReleaseTimer? {
      LocalKeptLast(s, step);
    } else if step.EndContext? {
      LocalKeptContext(s, step);
    } else if step.Spawn? || step.ArmTimer? || step.RunReturns? || step.RunSends? {
      LocalKeptRunning(s, step);
    } else {
      LocalKeptEarly(s, step);
    }
  }

  // ---------- the shared objects ----------

  /** A call's channel is its own, and holds exactly what its own run has sent and the call
      has not yet received. */
  predicate OwnsChannel(s: State, c: Call, ch: nat) {
    && ch < |s.channels| && s.freeChannels[ch] == 0
    && s.channels[ch] == if c.run.Sent? && c.received.None? then Some(c.run.result) else None
  }

  /** So is its timer, set to the call's deadline, and it never ticks early, but will tick. */
  predicate OwnsTimer(s: State, c: Call, t: nat) {
    && t < |s.timers| && s.freeTimers[t] == 0
    && (c.pc.Selecting? ==> s.timers[t].armed || s.timers[t].tick)
    && s.timers[t].deadline == c.deadline && (s.timers[t].tick ==> s.clock >= c.deadline)
  }

  predicate Owns(s: State, c: Call) {
    && (c.channel.Some? ==> OwnsChannel(s, c, c.channel.value))
    && (c.timer.Some? ==> OwnsTimer(s, c, c.timer.value))
    && (!c.pc.Start? ==> c.circuit < |s.circuits| && s.circuits[c.circuit].name == c.name)
  }

  predicate Exclusive(calls: seq<Call>) {
    forall i, j :: 0 <= i < j < |calls| ==>
      && (calls[i].channel.Some? ==> calls[i].channel != calls[j].channel)
      && (calls[i].timer.Some? ==> calls[i].timer != calls[j].timer)
  }

  /** What the object pools hold is in there once, clean, and idle. */
  predicate ChannelsClean(channels: seq<Option<Result>>, free: multiset<nat>) {
    forall ch :: ch in free ==> free[ch] == 1 && ch < |channels| && channels[ch].None?
  }

  predicate TimersClean(timers: seq<Timer>, free: multiset<nat>) {
    forall t :: t in free ==> free[t] == 1 && t < |timers| && !timers[t].armed && !timers[t].tick
  }

  predicate PoolsClean(s: State) {
    ChannelsClean(s.channels, s.freeChannels) && TimersClean(s.timers, s.freeTimers)
  }

  // ---------- tickets and reports, added up ----------

  datatype Measure = Holding | Reported | Succeeded | OfKind(primary: M.Primary)

  function Weight(c: Call, k: nat, m: Measure): nat {
    if c.pc.Start? || c.circuit != k then 0
    else
      match m
      case Holding => if c.ticket then 1 else 0
      case Reported => if c.reported.Some? then 1 else 0
      case Succeeded => if c.reported.Some? && c.received == Some(Nil) then 1 else 0
      case OfKind(primary) => if c.reported.Some? && c.reported.value.0 == primary then 1 else 0
  }

  /** Over all calls to circuit object `k`. */
  function Count(calls: seq<Call>, k: nat, m: Measure): nat {
    if calls == [] then 0 else Count(calls[..|calls| - 1], k, m) + Weight(calls[|calls| - 1], k, m)
  }

  function Successes(reports: seq<M.Primary>): nat {
    if reports == [] then 0 else Successes(reports[..|reports| - 1]) + if reports[|reports| - 1].Success? then 1 else 0
  }

  predicate Adds(circuit: Circuit, calls: seq<Call>, k: nat) {
    && circuit.tickets + Count(calls, k, Holding) == circuit.max
    && |circuit.reports| == Count(calls, k, Reported)
    && Successes(circuit.reports) == Count(calls, k, Succeeded)
  }

  predicate AllAdd(s: State) {
    && (forall k :: 0 <= k < |s.circuits| ==> Adds(s.circuits[k], s.calls, k))
    && (forall name :: name in s.registry ==>
          s.registry[name] < |s.circuits| && s.circuits[s.registry[name]].name == name)
  }

  predicate CallsOk(s: State) {
    forall i :: 0 <= i < |s.calls| ==> Local(s.calls[i]) && Owns(s, s.calls[i])
  }

  predicate Inv(s: State) {
    && CallsOk(s)
    && Exclusive(s.calls)
    && PoolsClean(s)
    && AllAdd(s)
  }

  // ---------- steps of a call ----------

  lemma SharedLeavesCalls(s: State, step: Step)
    requires Enabled(s, step) && HasCall(step)
    ensures NextShared(s, step).calls == s.calls
  {
  }

  lemma HoldNothingInCommon(s: State, i: nat, j: nat)
    requires Inv(s) && i < |s.calls| && j < |s.calls| && i != j
    ensures s.calls[i].channel.Some? ==> s.calls[i].channel != s.calls[j].channel
    ensures s.calls[i].timer.Some? ==> s.calls[i].timer != s.calls[j].timer
  {
  }

  lemma OthersKeepChannel(s: State, step: Step, c: Call)
    requires Enabled(s, step) && HasCall(step) && Local(s.calls[step.id]) && Owns(s, s.calls[step.id]) && Owns(s, c)
    requires c.channel.Some? && c.channel != s.calls[step.id].channel
    ensures OwnsChannel(NextShared(s, step), c, c.channel.value)
  {
  }

  lemma OthersKeepTimer(s: State, step: Step, c: Call)
    requires Enabled(s, step) && HasCall(step) && Owns(s, s.calls[step.id]) && Owns(s, c)
    requires c.timer.Some? && c.timer != s.calls[step.id].timer
    ensures OwnsTimer(NextShared(s, step), c, c.timer.value)
  {
  }

  lemma CircuitsOnlyGrow(s: State, step: Step)
    requires Enabled(s, step) && HasCall(step)
    ensures |NextShared(s, step).circuits| >= |s.circuits|
    ensures forall k :: 0 <= k < |s.circuits| ==>
              NextShared(s, step).circuits[k].name == s.circuits[k].name && NextShared(s, step).circuits[k].max == s.circuits[k].max
  {
  }

  lemma OthersKept(s: State, step: Step, j: nat)
    requires Inv(s) && Enabled(s, step) && HasCall(step) && j < |s.calls| && j != step.id
    ensures Owns(NextShared(s, step), s.calls[j])
  {
    assert Local(s.calls[step.id]) && Owns(s, s.calls[step.id]) && Owns(s, s.calls[j]);
    CircuitsOnlyGrow(s, step);
    HoldNothingInCommon(s, j, step.id);
    if s.calls[j].channel.Some? {
      OthersKeepChannel(s, step, s.calls[j]);
    }
    if s.calls[j].timer.Some? {
      OthersKeepTimer(s, step, s.calls[j]);
    }
  }

  /** Objects not made yet are in no pool. */
  lemma NewObjectsAreNotPooled(s: State)
    requires PoolsClean(s)
    ensures s.freeChannels[|s.channels|] == 0 && s.freeTimers[|s.timers|] == 0
  {
  }

  lemma AcquiredChannelIsOwn(s: State, step: Step)
    requires Enabled(s, step) && step.AcquireChannel? && Local(s.calls[step.id]) && PoolsClean(s)
    ensures OwnsChannel(NextShared(s, step), NextCall(s, step), NextCall(s, step).channel.value)
  {
    NewObjectsAreNotPooled(s);
  }

  lemma UsedChannelKept(s: State, step: Step)
    requires Enabled(s, step) && (step.RunSends? || step.ReceiveResult?)
    requires Local(s.calls[step.id]) && Owns(s, s.calls[step.id])
    ensures NextCall(s, step).channel.Some? ==> OwnsChannel(NextShared(s, step), NextCall(s, step), NextCall(s, step).channel.value)
  {
  }

  /** Other steps leave all channels alone, and what their call has sent and received. */
  lemma IdleStepLeavesChannel(s: State, step: Step)
    requires Enabled(s, step) && HasCall(step) && Local(s.calls[step.id])
    requires !step.AcquireChannel? && !step.RunSends? && !step.ReceiveResult? && NextCall(s, step).channel.Some?
    ensures var c, c', s' := s.calls[step.id], NextCall(s, step), NextShared(s, step);
            && s'.channels == s.channels && s'.freeChannels == s.freeChannels
            && c'.channel == c.channel && c'.received == c.received
            && c'.run.Sent? == c.run.Sent? && (c.run.Sent? ==> c'.run == c.run)
  {
  }

  lemma IdleChannelKept(s: State, step: Step)
    requires Enabled(s, step) && HasCall(step) && Local(s.calls[step.id]) && Owns(s, s.calls[step.id])
    requires !step.AcquireChannel? && !step.RunSends? && !step.ReceiveResult? && NextCall(s, step).channel.Some?
    ensures OwnsChannel(NextShared(s, step), NextCall(s, step), NextCall(s, step).channel.value)
  {
    IdleStepLeavesChannel(s, step);
  }

  lemma ArmedTimerIsOwn(s: State, step: Step)
    requires Enabled(s, step) && step.ArmTimer? && PoolsClean(s)
    ensures OwnsTimer(NextShared(s, step), NextCall(s, step), NextCall(s, step).timer.value)
  {
    NewObjectsAreNotPooled(s);
  }

  lemma StepLeavesTimer(s: State, step: Step)
    requires Enabled(s, step) && HasCall(step) && !step.ArmTimer? && NextCall(s, step).timer.Some?
    ensures var c, c', s' := s.calls[step.id], NextCall(s, step), NextShared(s, step);
            && c'.timer == c.timer && c'.deadline == c.deadline
            && s'.clock == s.clock && s'.freeTimers == s.freeTimers
            && s'.timers == if step.ReceiveTick? then s.timers[c.timer.value := s.timers[c.timer.value].(tick := false)] else s.timers
  {
  }

  lemma HeldTimerKept(s: State, step: Step)
    requires Enabled(s, step) && HasCall(step) && Owns(s, s.calls[step.id])
    requires !step.ArmTimer? && NextCall(s, step).timer.Some?
    ensures OwnsTimer(NextShared(s, step), NextCall(s, step), NextCall(s, step).timer.value)
  {
    StepLeavesTimer(s, step);
  }

  lemma OwnCircuitKept(s: State, step: Step)
    requires Enabled(s, step) && HasCall(step) && Owns(s, s.calls[step.id])
    requires forall name :: name in s.registry ==> s.registry[name] < |s.circuits| && s.circuits[s.registry[name]].name == name
    ensures var c, s' := NextCall(s, step), NextShared(s, step);
            !c.pc.Start? ==> c.circuit < |s'.circuits| && s'.circuits[c.circuit].name == c.name
  {
    CircuitsOnlyGrow(s, step);
  }

  lemma OwnKept(s: State, step: Step)
    requires Inv(s) && Enabled(s, step) && HasCall(step)
    ensures Owns(NextShared(s, step), NextCall(s, step))
  {
    assert Local(s.calls[step.id]) && Owns(s, s.calls[step.id]);
    OwnCircuitKept(s, step);
    if step.AcquireChannel? {
      AcquiredChannelIsOwn(s, step);
    } else if step.RunSends? || step.ReceiveResult? {
      UsedChannelKept(s, step);
    } else if NextCall(s, step).channel.Some? {
      IdleChannelKept(s, step);
    }
    if step.ArmTimer? {
      ArmedTimerIsOwn(s, step);
    } else if NextCall(s, step).timer.Some? {
      HeldTimerKept(s, step);
    }
  }

  /** What a call holds after a step it held before, or took from a pool, or is new. */
  lemma HoldingsOf(s: State, step: Step)
    requires Enabled(s, step) && HasCall(step)
    ensures var before, after := s.calls[step.id].channel, NextCall(s, step).channel;
            after.None? || after == before || s.freeChannels[after.value] > 0 || after.value == |s.channels|
    ensures var before, after := s.calls[step.id].timer, NextCall(s, step).timer;
            after.None? || after == before || s.freeTimers[after.value] > 0 || after.value == |s.timers|
  {
  }

  lemma ExclusiveKept(s: State, step: Step)
    requires Inv(s) && Enabled(s, step) && HasCall(step)
    ensures Exclusive(s.calls[step.id := NextCall(s, step)])
  {
    var c := NextCall(s, step);
    HoldingsOf(s, step);
    forall j | 0 <= j < |s.calls| && j != step.id
      ensures c.channel.Some? ==> c.channel != s.calls[j].channel
      ensures c.timer.Some? ==> c.timer != s.calls[j].timer
    {
      assert Owns(s, s.calls[j]);
      HoldNothingInCommon(s, step.id, j);
    }
    ReplaceExclusive(s.calls, step.id, c);
  }

  lemma ReplaceExclusive(calls: seq<Call>, id: nat, c: Call)
    requires Exclusive(calls) && id < |calls|
    requires forall j :: 0 <= j < |calls| && j != id ==>
               (c.channel.Some? ==> c.channel != calls[j].channel) && (c.timer.Some? ==> c.timer != calls[j].timer)
    ensures Exclusive(calls[id := c])
  {
  }

  lemma ChannelPoolKept(s: State, step: Step)
    requires Enabled(s, step) && HasCall(step) && Local(s.calls[step.id]) && Owns(s, s.calls[step.id]) && PoolsClean(s)
    requires step.RunSends? || step.AcquireChannel? || step.ReceiveResult? || step.ReleaseChannel?
    ensures PoolsClean(NextShared(s, step))
  {
  }

  lemma TimerPoolKept(s: State, step: Step)
    requires Enabled(s, step) && HasCall(step) && Local(s.calls[step.id]) && Owns(s, s.calls[step.id]) && PoolsClean(s)
    requires step.ArmTimer? || step.ReceiveTick? || step.ReleaseTimer?
    ensures PoolsClean(NextShared(s, step))
  {
  }

  lemma PoolsKept(s: State, step: Step)
    requires Inv(s) && Enabled(s, step) && HasCall(step)
    ensures PoolsClean(NextShared(s, step))
  {
    assert Local(s.calls[step.id]) && Owns(s, s.calls[step.id]);
    if step.RunSends? || step.AcquireChannel? || step.ReceiveResult? || step.ReleaseChannel? {
      ChannelPoolKept(s, step);
    } else if step.ArmTimer? || step.ReceiveTick? || step.ReleaseTimer? {
      TimerPoolKept(s, step);
    }
  }

  lemma {:induction false} CountAfterUpdate(calls: seq<Call>, id: nat, c: Call, k: nat, m: Measure)
    requires id < |calls|
    ensures Count(calls[id := c], k, m) == Count(calls, k, m) - Weight(calls[id], k, m) + Weight(c, k, m)
  {
    var init := calls[..|calls| - 1];
    if id < |init| {
      CountAfterUpdate(init, id, c, k, m);
      assert calls[id := c][..|calls| - 1] == init[id := c];
    } else {
      assert calls[id := c][..|calls| - 1] == init;
    }
  }

  /** A circuit object that no call has got hold of yet. */
  lemma {:induction false} CountOfNewCircuit(calls: seq<Call>, k: nat, m: Measure)
    requires forall i :: 0 <= i < |calls| ==> calls[i].pc.Start? || calls[i].circuit < k
    ensures Count(calls, k, m) == 0
  {
    if calls != [] {
      CountOfNewCircuit(calls[..|calls| - 1], k, m);
    }
  }

  lemma NewCircuitAdds(s: State, c: Call, id: nat, k: nat, circuit: Circuit)
    requires Inv(s) && id < |s.calls| && k == |s.circuits| && circuit.tickets == circuit.max && circuit.reports == []
    requires c.channel.None? && !c.ticket && c.reported.None?
    ensures Adds(circuit, s.calls[id := c], k)
  {
    var calls := s.calls[id := c];
    forall m: Measure ensures Count(calls, k, m) == 0 {
      forall i | 0 <= i < |s.calls| ensures s.calls[i].pc.Start? || s.calls[i].circuit < k {
        assert Owns(s, s.calls[i]);
      }
      CountOfNewCircuit(s.calls, k, m);
      CountAfterUpdate(s.calls, id, c, k, m);
    }
  }

  /** The books of circuit `k` after call `id` becomes `c`, in terms of what it weighed. */
  predicate Rebooks(before: Circuit, after: Circuit, was: Call, c: Call, k: nat) {
    && after.max == before.max
    && after.tickets + Weight(c, k, Holding) == before.tickets + Weight(was, k, Holding)
    && |after.reports| + Weight(was, k, Reported) == |before.reports| + Weight(c, k, Reported)
    && Successes(after.reports) + Weight(was, k, Succeeded) == Successes(before.reports) + Weight(c, k, Succeeded)
  }

  predicate MovesBooks(step: Step) {
    step.GetCircuit? || step.TakeTicket? || step.ReturnTicket? || step.ReportEvent?
  }

  lemma QuietStepWeighsSame(s: State, step: Step, k: nat, m: Measure)
    requires Enabled(s, step) && HasCall(step) && !MovesBooks(step) && Local(s.calls[step.id])
    ensures NextShared(s, step).circuits == s.circuits
    ensures Weight(NextCall(s, step), k, m) == Weight(s.calls[step.id], k, m)
  {
  }

  lemma TicketStepRebooks(s: State, step: Step, k: nat)
    requires Enabled(s, step) && HasCall(step) && k < |s.circuits| && (step.TakeTicket? || step.ReturnTicket?)
    requires Local(s.calls[step.id])
    ensures k < |NextShared(s, step).circuits|
    ensures Rebooks(s.circuits[k], NextShared(s, step).circuits[k], s.calls[step.id], NextCall(s, step), k)
  {
  }

  lemma ReportStepRebooks(s: State, step: Step, k: nat)
    requires Enabled(s, step) && HasCall(step) && k < |s.circuits| && step.ReportEvent?
    requires Local(s.calls[step.id])
    ensures k < |NextShared(s, step).circuits|
    ensures Rebooks(s.circuits[k], NextShared(s, step).circuits[k], s.calls[step.id], NextCall(s, step), k)
  {
  }

  lemma StepRebooks(s: State, step: Step, k: nat)
    requires Enabled(s, step) && HasCall(step) && k < |s.circuits|
    requires Local(s.calls[step.id]) && Owns(s, s.calls[step.id])
    ensures k < |NextShared(s, step).circuits|
    ensures Rebooks(s.circuits[k], NextShared(s, step).circuits[k], s.calls[step.id], NextCall(s, step), k)
  {
    if !MovesBooks(step) {
      QuietStepWeighsSame(s, step, k, Holding);
      QuietStepWeighsSame(s, step, k, Reported);
      QuietStepWeighsSame(s, step, k, Succeeded);
    } else if step.ReportEvent? {
      ReportStepRebooks(s, step, k);
    } else if !step.GetCircuit? {
      TicketStepRebooks(s, step, k);
    }
  }

  lemma RebookedAdds(before: Circuit, after: Circuit, calls: seq<Call>, id: nat, c: Call, k: nat)
    requires Adds(before, calls, k) && id < |calls| && Rebooks(before, after, calls[id], c, k)
    ensures Adds(after, calls[id := c], k)
  {
    CountAfterUpdate(calls, id, c, k, Holding);
    CountAfterUpdate(calls, id, c, k, Reported);
    CountAfterUpdate(calls, id, c, k, Succeeded);
  }

  lemma NewCircuitOnlyAtEnd(s: State, step: Step)
    requires Enabled(s, step) && HasCall(step) && |NextShared(s, step).circuits| > |s.circuits|
    ensures step.GetCircuit? && |NextShared(s, step).circuits| == |s.circuits| + 1
    ensures var circuit := NextShared(s, step).circuits[|s.circuits|]; circuit.tickets == circuit.max && circuit.reports == []
  {
  }

  lemma AddsKept(s: State, step: Step, k: nat)
    requires Inv(s) && Enabled(s, step) && HasCall(step) && k < |NextShared(s, step).circuits|
    ensures Adds(NextShared(s, step).circuits[k], s.calls[step.id := NextCall(s, step)], k)
  {
    assert Local(s.calls[step.id]) && Owns(s, s.calls[step.id]);
    var shared, c := NextShared(s, step), NextCall(s, step);
    if k >= |s.circuits| {
      NewCircuitOnlyAtEnd(s, step);
      NewCircuitAdds(s, c, step.id, k, shared.circuits[k]);
    } else {
      StepRebooks(s, step, k);
      RebookedAdds(s.circuits[k], shared.circuits[k], s.calls, step.id, c, k);
    }
  }

  lemma RegistryKept(s: State, step: Step)
    requires Inv(s) && Enabled(s, step) && HasCall(step)
    ensures var s' := NextShared(s, step);
            forall name :: name in s'.registry ==>
              s'.registry[name] < |s'.circuits| && s'.circuits[s'.registry[name]].name == name
  {
    CircuitsOnlyGrow(s, step);
  }

  lemma AllAddKept(s: State, step: Step)
    requires Inv(s) && Enabled(s, step) && HasCall(step)
    ensures AllAdd(Next(s, step))
  {
    SharedLeavesCalls(s, step);
    RegistryKept(s, step);
    forall k | 0 <= k < |NextShared(s, step).circuits|
      ensures Adds(NextShared(s, step).circuits[k], s.calls[step.id := NextCall(s, step)], k)
    {
      AddsKept(s, step, k);
    }
  }

  lemma SelfKept(s: State, step: Step)
    requires Inv(s) && Enabled(s, step) && HasCall(step)
    ensures Local(NextCall(s, step))
  {
    assert Local(s.calls[step.id]) && Owns(s, s.calls[step.id]);
    assert TickIsDue(s, step) && ResultIsOwn(s, step);
    LocalKept(s, step);
  }

  lemma PutKeepsCalls(shared: State, id: nat, c: Call)
    requires id < |shared.calls| && Local(c) && Owns(shared, c)
    requires forall j :: 0 <= j < |shared.calls| && j != id ==> Local(shared.calls[j]) && Owns(shared, shared.calls[j])
    ensures CallsOk(Put(shared, id, c))
  {
  }

  lemma CallsKept(s: State, step: Step)
    requires Inv(s) && Enabled(s, step) && HasCall(step)
    ensures CallsOk(Next(s, step))
  {
    SelfKept(s, step);
    OwnKept(s, step);
    SharedLeavesCalls(s, step);
    forall j | 0 <= j < |s.calls| && j != step.id ensures Local(s.calls[j]) && Owns(NextShared(s, step), s.calls[j]) {
      OthersKept(s, step, j);
    }
    PutKeepsCalls(NextShared(s, step), step.id, NextCall(s, step));
  }

  lemma CallStepKeepsInv(s: State, step: Step)
    requires Inv(s) && Enabled(s, step) && HasCall(step)
    ensures Inv(Next(s, step))
  {
    CallsKept(s, step);
    ExclusiveKept(s, step);
    PoolsKept(s, step);
    AllAddKept(s, step);
  }

  // ---------- steps of the world ----------

  lemma WorldKeepsOwned(s: State, step: Step, c: Call)
    requires Enabled(s, step) && !HasCall(step) && Owns(s, c)
    ensures Owns(Next(s, step), c)
  {
  }

  lemma NewCallIsLocal(s: State, name: string, hasFallback: bool, timeout: nat)
    ensures var s' := Next(s, NewCall(name, hasFallback, timeout));
            && |s'.calls| == |s.calls| + 1 && s'.calls[..|s.calls|] == s.calls
            && var c := s'.calls[|s.calls|];
               Local(c) && Owns(s', c) && c.pc.Start? && c.channel.None? && c.timer.None?
  {
  }

  lemma WorldLeavesCalls(s: State, step: Step)
    requires Enabled(s, step) && !HasCall(step)
    ensures !step.NewCall? ==> Next(s, step).calls == s.calls
  {
  }

  lemma WorldKeepsCalls(s: State, step: Step)
    requires Inv(s) && Enabled(s, step) && !HasCall(step)
    ensures CallsOk(Next(s, step)) && Exclusive(Next(s, step).calls)
  {
    var s' := Next(s, step);
    WorldLeavesCalls(s, step);
    if step.NewCall? {
      NewCallIsLocal(s, step.name, step.hasFallback, step.timeout);
    }
    forall i | 0 <= i < |s'.calls| ensures Local(s'.calls[i]) && Owns(s', s'.calls[i]) {
      if i < |s.calls| {
        assert s'.calls[i] == s.calls[i] && Local(s.calls[i]) && Owns(s, s.calls[i]);
        WorldKeepsOwned(s, step, s.calls[i]);
      }
    }
  }

  lemma WorldKeepsBooks(s: State, step: Step)
    requires Inv(s) && Enabled(s, step) && !HasCall(step)
    ensures AllAdd(Next(s, step))
  {
  }

  lemma WorldKeepsPools(s: State, step: Step)
    requires Inv(s) && Enabled(s, step) && !HasCall(step)
    ensures PoolsClean(Next(s, step))
  {
  }

  lemma WorldStepKeepsInv(s: State, step: Step)
    requires Inv(s) && Enabled(s, step) && !HasCall(step)
    ensures Inv(Next(s, step))
  {
    WorldKeepsCalls(s, step);
    WorldKeepsBooks(s, step);
    WorldKeepsPools(s, step);
  }

  // ---------- runs ----------

  predicate StepAt(trace: seq<State>, steps: seq<Step>, k: nat)
    requires k < |steps| == |trace| - 1
  {
    Enabled(trace[k], steps[k]) && trace[k + 1] == Next(trace[k], steps[k])
  }

  ghost predicate IsRun(trace: seq<State>, steps: seq<Step>) {
    && |trace| == |steps| + 1
    && trace[0] == INITIAL
    && forall k :: 0 <= k < |steps| ==> StepAt(trace, steps, k)
  }

  lemma {:induction false} RunInv(trace: seq<State>, steps: seq<Step>, n: nat)
    requires IsRun(trace, steps) && n <= |steps|
    ensures Inv(trace[n])
  {
    if n > 0 {
      RunInv(trace, steps, n - 1);
      assert StepAt(trace, steps, n - 1);
      if HasCall(steps[n - 1]) {
        CallStepKeepsInv(trace[n - 1], steps[n - 1]);
      } else {
        WorldStepKeepsInv(trace[n - 1], steps[n - 1]);
      }
    }
  }

  /** No cross-talk: whatever a call ever receives is what its own run returned and sent,
      though channels pass from call to call. */
  lemma ReceivesOwnResult(trace: seq<State>, steps: seq<Step>, n: nat, id: nat)
    requires IsRun(trace, steps) && n <= |steps| && id < |trace[n].calls|
    requires trace[n].calls[id].received.Some?
    ensures trace[n].calls[id].run == Sent(trace[n].calls[id].received.value)
  {
    RunInv(trace, steps, n);
    assert Local(trace[n].calls[id]);
  }

  /** No goroutine is ever stuck: its channel has room whenever its run is over, even if its
      call has long timed out or been cancelled. */
  lemma SendNeverBlocks(trace: seq<State>, steps: seq<Step>, n: nat, id: nat)
    requires IsRun(trace, steps) && n <= |steps| && id < |trace[n].calls|
    requires trace[n].calls[id].run.Finished?
    ensures Enabled(trace[n], RunSends(id))
  {
    RunInv(trace, steps, n);
    assert Local(trace[n].calls[id]) && Owns(trace[n], trace[n].calls[id]);
  }

  /** A channel in the object pool is in there once and empty, and no call or goroutine
      still holds it; so a channel whose call gave up on it is never there. */
  lemma PooledChannelIsClean(trace: seq<State>, steps: seq<Step>, n: nat, ch: nat)
    requires IsRun(trace, steps) && n <= |steps| && ch in trace[n].freeChannels
    ensures var s := trace[n];
            && s.freeChannels[ch] == 1 && ch < |s.channels| && s.channels[ch].None?
            && (forall i :: 0 <= i < |s.calls| ==>
                  var c := s.calls[i];
                  c.channel != Some(ch) && (c.run.Running? || c.run.Finished? ==> c.run.channel != ch))
  {
    RunInv(trace, steps, n);
    forall i | 0 <= i < |trace[n].calls|
      ensures trace[n].calls[i].channel != Some(ch)
      ensures var run := trace[n].calls[i].run; run.Running? || run.Finished? ==> run.channel != ch
    {
      assert Local(trace[n].calls[i]) && Owns(trace[n], trace[n].calls[i]);
    }
  }

  /** A recycled timer never cuts a call short: who ends by timeout had its full time. */
  lemma NoEarlyTimeout(trace: seq<State>, steps: seq<Step>, n: nat, id: nat)
    requires IsRun(trace, steps) && n <= |steps| && id < |trace[n].calls|
    requires trace[n].calls[id].ending.TimerEnded?
    ensures trace[n].calls[id].endedAt >= trace[n].calls[id].deadline
  {
    RunInv(trace, steps, n);
    assert Local(trace[n].calls[id]);
  }

  /** Tickets are conserved in every circuit object, flushed or not: those in its channel
      and those held by calls always make up the pool, so the active count is the number
      of calls holding a ticket and never leaves the range of the pool. */
  lemma TicketsConserved(trace: seq<State>, steps: seq<Step>, n: nat, k: nat)
    requires IsRun(trace, steps) && n <= |steps| && k < |trace[n].circuits|
    ensures var circuit := trace[n].circuits[k];
            0 <= circuit.max - circuit.tickets == Count(trace[n].calls, k, Holding) <= circuit.max
  {
    RunInv(trace, steps, n);
    assert Adds(trace[n].circuits[k], trace[n].calls, k);
  }

  lemma {:induction false} HolderCounts(calls: seq<Call>, id: nat, k: nat)
    requires id < |calls| && calls[id].ticket && !calls[id].pc.Start? && calls[id].circuit == k
    ensures Count(calls, k, Holding) >= 1
  {
    if id < |calls| - 1 {
      HolderCounts(calls[..|calls| - 1], id, k);
    }
  }

  lemma NextCallKeepsCircuit(s: State, step: Step)
    requires Enabled(s, step) && HasCall(step) && !s.calls[step.id].pc.Start?
    ensures !NextCall(s, step).pc.Start? && NextCall(s, step).circuit == s.calls[step.id].circuit
  {
  }

  predicate DealsWith(s: State, id: nat, k: nat) {
    id < |s.calls| && !s.calls[id].pc.Start? && s.calls[id].circuit == k
  }

  lemma StepKeepsCircuit(s: State, step: Step, id: nat, k: nat)
    requires Enabled(s, step) && DealsWith(s, id, k)
    ensures DealsWith(Next(s, step), id, k)
  {
    if HasCall(step) {
      SharedLeavesCalls(s, step);
      if id == step.id {
        NextCallKeepsCircuit(s, step);
      }
    } else {
      WorldLeavesCalls(s, step);
      if step.NewCall? {
        NewCallIsLocal(s, step.name, step.hasFallback, step.timeout);
      }
    }
  }

  lemma RunStepKeepsCircuit(trace: seq<State>, steps: seq<Step>, n: nat, id: nat, k: nat)
    requires IsRun(trace, steps) && n < |steps| && DealsWith(trace[n], id, k)
    ensures DealsWith(trace[n + 1], id, k)
  {
    assert StepAt(trace, steps, n);
    StepKeepsCircuit(trace[n], steps[n], id, k);
  }

  /** A call deals with one circuit object all its life, whatever is flushed meanwhile. */
  lemma {:induction false} CircuitIsForLife(trace: seq<State>, steps: seq<Step>, m: nat, n: nat, id: nat, k: nat)
    requires IsRun(trace, steps) && m <= n <= |steps| && DealsWith(trace[m], id, k)
    ensures DealsWith(trace[n], id, k)
  {
    if m < n {
      CircuitIsForLife(trace, steps, m, n - 1, id, k);
      RunStepKeepsCircuit(trace, steps, n - 1, id, k);
    }
  }

  /** Returning a ticket never blocks, and it goes back to the circuit it came from. */
  lemma ReturnNeverBlocks(trace: seq<State>, steps: seq<Step>, n: nat, id: nat)
    requires IsRun(trace, steps) && n <= |steps| && id < |trace[n].calls|
    requires trace[n].calls[id].pc.Returning?
    ensures Enabled(trace[n], ReturnTicket(id))
    ensures var c, s' := trace[n].calls[id], Next(trace[n], ReturnTicket(id));
            && s'.circuits[c.circuit].tickets == trace[n].circuits[c.circuit].tickets + 1
            && s'.circuits[c.circuit].name == c.name && !s'.calls[id].ticket
  {
    RunInv(trace, steps, n);
    var c := trace[n].calls[id];
    assert Local(c) && Owns(trace[n], c);
    assert Adds(trace[n].circuits[c.circuit], trace[n].calls, c.circuit);
    HolderCounts(trace[n].calls, id, c.circuit);
  }

  /** Exactly-once accounting: a call that is back has reported one event, which fits how it
      ended, has called its fallback once if it has one and did not succeed, and otherwise
      never, and returns nil exactly if its run's nil reached it or its fallback gave nil. */
  lemma FinishedCallIsAccounted(trace: seq<State>, steps: seq<Step>, n: nat, id: nat)
    requires IsRun(trace, steps) && n <= |steps| && id < |trace[n].calls| && trace[n].calls[id].pc.Back?
    ensures var c := trace[n].calls[id];
            && c.reported.Some? && EventFits(c, c.reported.value.0)
            && (c.reported.value.0.Success? <==> c.received == Some(Nil))
            && c.fallbackCalls == (if c.hasFallback && c.received != Some(Nil) then 1 else 0)
            && Yields(c, c.pc.result) && (c.pc.result.Nil? <==> c.received == Some(Nil) || c.fallback == Some(Nil))
            && !c.ticket && c.timer.None?
  {
    RunInv(trace, steps, n);
    assert Local(trace[n].calls[id]);
  }

  function CallsBack(calls: seq<Call>, k: nat): nat {
    if calls == [] then 0
    else
      var last := calls[|calls| - 1];
      CallsBack(calls[..|calls| - 1], k) + if last.pc.Back? && last.circuit == k then 1 else 0
  }

  function ReceivedNil(calls: seq<Call>, k: nat): nat {
    if calls == [] then 0
    else
      var last := calls[|calls| - 1];
      ReceivedNil(calls[..|calls| - 1], k) + if last.received == Some(Nil) && last.circuit == k then 1 else 0
  }

  lemma {:induction false} AllBackCounts(calls: seq<Call>, k: nat)
    requires forall i :: 0 <= i < |calls| ==> Local(calls[i]) && calls[i].pc.Back?
    ensures Count(calls, k, Holding) == 0
    ensures Count(calls, k, Reported) == CallsBack(calls, k)
    ensures Count(calls, k, Succeeded) == ReceivedNil(calls, k)
  {
    if calls != [] {
      assert Local(calls[|calls| - 1]);
      AllBackCounts(calls[..|calls| - 1], k);
    }
  }

  /** When all calls are back, every circuit object ever made has all its tickets, one event
      for each of its calls, and one success for each call that received nil. */
  lemma BooksBalance(trace: seq<State>, steps: seq<Step>, n: nat, k: nat)
    requires IsRun(trace, steps) && n <= |steps| && k < |trace[n].circuits|
    requires forall i :: 0 <= i < |trace[n].calls| ==> trace[n].calls[i].pc.Back?
    ensures var s := trace[n];
            && s.circuits[k].tickets == s.circuits[k].max
            && |s.circuits[k].reports| == CallsBack(s.calls, k)
            && Successes(s.circuits[k].reports) == ReceivedNil(s.calls, k)
  {
    RunInv(trace, steps, n);
    AllBackCounts(trace[n].calls, k);
    assert Adds(trace[n].circuits[k], trace[n].calls, k);
  }

  // ---------- an error that passes for one of the library's own ----------

  lemma Extend(trace: seq<State>, steps: seq<Step>, step: Step, s: State) returns (trace': seq<State>, steps': seq<Step>)
    requires IsRun(trace, steps) && Enabled(trace[|steps|], step) && s == Next(trace[|steps|], step)
    ensures IsRun(trace', steps') && |steps'| == |steps| + 1 && trace'[|steps'|] == s
  {
    trace', steps' := trace + [s], steps + [step];
    forall k | 0 <= k < |steps'| ensures StepAt(trace', steps', k) {
      assert k < |steps| ==> StepAt(trace, steps, k);
    }
  }

  /** The stages of one call, from its start to its end. */
  lemma StageAllowed() returns (trace: seq<State>, steps: seq<Step>, c: Call)
    ensures IsRun(trace, steps)
    ensures c == Call("a", false, 1_000, Taking, 0, false, None, None, NotStarted, None, 0, 0, Pending, None, None, None, 0, None)
    ensures trace[|steps|] == INITIAL.(circuits := [Circuit("a", 10, 10, [])], registry := map["a" := 0], calls := [c])
  {
    trace, steps := [INITIAL], [];
    c := Call("a", false, 1_000, Start, 0, false, None, None, NotStarted, None, 0, 0, Pending, None, None, None, 0, None);
    trace, steps := Extend(trace, steps, NewCall("a", false, 1_000), INITIAL.(calls := [c]));
    c := c.(pc := Asking);
    var s := INITIAL.(circuits := [Circuit("a", 10, 10, [])], registry := map["a" := 0], calls := [c]);
    trace, steps := Extend(trace, steps, GetCircuit(0, 10), s);
    c := c.(pc := Taking);
    trace, steps := Extend(trace, steps, AllowRequest(0, true), s.(calls := [c]));
  }

  lemma StageReady() returns (trace: seq<State>, steps: seq<Step>, c: Call)
    ensures IsRun(trace, steps)
    ensures c == Call("a", false, 1_000, Spawning, 0, true, Some(0), None, NotStarted, None, 0, 0, Pending, None, None, None, 0, None)
    ensures trace[|steps|] == State(0, [Circuit("a", 10, 9, [])], map["a" := 0], [None], multiset{}, [], multiset{}, [c])
  {
    trace, steps, c := StageAllowed();
    c := c.(pc := Acquiring, ticket := true);
    var s := State(0, [Circuit("a", 10, 9, [])], map["a" := 0], [], multiset{}, [], multiset{}, [c]);
    trace, steps := Extend(trace, steps, TakeTicket(0), s);
    c := c.(pc := Spawning, channel := Some(0));
    trace, steps := Extend(trace, steps, AcquireChannel(0, None), s.(channels := [None], calls := [c]));
  }

  lemma StageRunning() returns (trace: seq<State>, steps: seq<Step>, c: Call)
    ensures IsRun(trace, steps)
    ensures c == Call("a", false, 1_000, Selecting, 0, true, Some(0), Some(0), Running(0), None, 1_000, 0, Pending, None, None, None, 0, None)
    ensures trace[|steps|] == State(0, [Circuit("a", 10, 9, [])], map["a" := 0], [None], multiset{},
                                    [Timer(1_000, true, false)], multiset{}, [c])
  {
    trace, steps, c := StageReady();
    c := c.(pc := Arming, run := Running(0));
    var s := trace[|steps|].(calls := [c]);
    trace, steps := Extend(trace, steps, Spawn(0), s);
    c := c.(pc := Selecting, timer := Some(0), deadline := 1_000);
    trace, steps := Extend(trace, steps, ArmTimer(0, None), s.(timers := [Timer(1_000, true, false)], calls := [c]));
  }

  const OPEN: Result := Fail(CircuitOpen)

  lemma StageSent() returns (trace: seq<State>, steps: seq<Step>, c: Call)
    ensures IsRun(trace, steps)
    ensures c == Call("a", false, 1_000, Selecting, 0, true, Some(0), Some(0), Sent(OPEN), None, 1_000, 0, Pending, None, None, None, 0, None)
    ensures trace[|steps|] == State(0, [Circuit("a", 10, 9, [])], map["a" := 0], [Some(OPEN)], multiset{},
                                    [Timer(1_000, true, false)], multiset{}, [c])
  {
    trace, steps, c := StageRunning();
    c := c.(run := Finished(0, OPEN));
    var s := trace[|steps|].(calls := [c]);
    trace, steps := Extend(trace, steps, RunReturns(0, OPEN), s);
    c := c.(run := Sent(OPEN));
    trace, steps := Extend(trace, steps, RunSends(0), s.(channels := [Some(OPEN)], calls := [c]));
  }

  lemma StageReceived() returns (trace: seq<State>, steps: seq<Step>, c: Call)
    ensures IsRun(trace, steps)
    ensures c == Call("a", false, 1_000, Releasing(OPEN), 0, false, Some(0), Some(0), Sent(OPEN), None, 1_000, 0, RunEnded,
                      Some(OPEN), None, None, 0, None)
    ensures trace[|steps|] == State(0, [Circuit("a", 10, 10, [])], map["a" := 0], [None], multiset{},
                                    [Timer(1_000, true, false)], multiset{}, [c])
  {
    trace, steps, c := StageSent();
    c := c.(pc := Returning(Release(OPEN)), received := Some(OPEN), ending := RunEnded);
    var s := trace[|steps|].(channels := [None], calls := [c]);
    trace, steps := Extend(trace, steps, ReceiveResult(0), s);
    c := c.(pc := Releasing(OPEN), ticket := false);
    trace, steps := Extend(trace, steps, ReturnTicket(0), s.(circuits := [Circuit("a", 10, 10, [])], calls := [c]));
  }

  lemma StageFailed() returns (trace: seq<State>, steps: seq<Step>, c: Call)
    ensures IsRun(trace, steps)
    ensures c == Call("a", false, 1_000, FallingBack(CircuitOpen, M.ShortCircuit), 0, false, None, Some(0), Sent(OPEN), None,
                      1_000, 0, RunEnded, Some(OPEN), None, None, 0, None)
    ensures trace[|steps|] == State(0, [Circuit("a", 10, 10, [])], map["a" := 0], [None], multiset{0},
                                    [Timer(1_000, true, false)], multiset{}, [c])
  {
    trace, steps, c := StageReceived();
    c := c.(pc := Failing(CircuitOpen), channel := None);
    var s := trace[|steps|].(freeChannels := multiset{0}, calls := [c]);
    trace, steps := Extend(trace, steps, ReleaseChannel(0), s);
    c := c.(pc := FallingBack(CircuitOpen, M.ShortCircuit));
    trace, steps := Extend(trace, steps, ClassifyError(0), s.(calls := [c]));
  }

  lemma StageReported() returns (trace: seq<State>, steps: seq<Step>, c: Call)
    ensures IsRun(trace, steps)
    ensures c == Call("a", false, 1_000, Leaving(OPEN), 0, false, None, Some(0), Sent(OPEN), None,
                      1_000, 0, RunEnded, Some(OPEN), None, None, 0, Some((M.ShortCircuit, M.NoFallback)))
    ensures trace[|steps|] == State(0, [Circuit("a", 10, 10, [M.ShortCircuit])], map["a" := 0], [None], multiset{0},
                                    [Timer(1_000, true, false)], multiset{}, [c])
  {
    trace, steps, c := StageFailed();
    c := c.(pc := Reporting(M.ShortCircuit, M.NoFallback, OPEN));
    var s := trace[|steps|].(calls := [c]);
    trace, steps := Extend(trace, steps, TryFallback(0, Nil), s);
    c := c.(pc := Leaving(OPEN), reported := Some((M.ShortCircuit, M.NoFallback)));
    var circuit := Circuit("a", 10, 10, [M.ShortCircuit]);
    assert s.circuits[0].(reports := [] + [M.ShortCircuit]) == circuit;
    assert s.circuits[0 := circuit] == [circuit];
    trace, steps := Extend(trace, steps, ReportEvent(0), s.(circuits := [circuit], calls := [c]));
  }

  /** The run function returns the error of another circuit that is open: its own circuit,
      which is closed and let it run to its end, reports a short circuit. */
  lemma NestedErrorIsMistaken() returns (trace: seq<State>, steps: seq<Step>)
    ensures IsRun(trace, steps) && |trace[|steps|].calls| == 1
    ensures var c := trace[|steps|].calls[0];
            && c.pc.Back? && c.ending.RunEnded? && c.run == Sent(Fail(CircuitOpen))
            && c.reported == Some((M.ShortCircuit, M.NoFallback))
    ensures trace[|steps|].circuits == [Circuit("a", 10, 10, [M.ShortCircuit])]
  {
    var c;
    trace, steps, c := StageReported();
    c := c.(pc := Back(OPEN), timer := None);
    var s := trace[|steps|].(timers := [Timer(1_000, false, false)], freeTimers := multiset{0}, calls := [c]);
    trace, steps := Extend(trace, steps, ReleaseTimer(0), s);
  }
}
