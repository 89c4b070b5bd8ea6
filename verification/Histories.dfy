/** What the steps of a run say happened to one call, and that the call does accordingly.

    A history is read off the steps alone: what was asked for, what the breaker answered,
    what the run and the fallback returned, how the context and the clock stood.  The
    theorems tie what a call goes through, reports and returns to its history. */
module Histories {
  import opened Common
  import opened Commands
  import M = Metrics

  datatype Request = Request(name: string, hasFallback: bool, timeout: nat)

  datatype History = History(
    request: Option<Request>, ended: Ending, endedAt: int, armedAt: Option<int>,
    returned: Option<Result>, context: Option<Error>, judged: Option<Error>, fellBack: Option<Result>)

  const BLANK: History := History(None, Pending, 0, None, None, None, None, None)

  /** The pool of the call's circuit has no ticket left. */
  predicate Exhausted(s: State, id: nat) {
    id < |s.calls| && s.calls[id].circuit < |s.circuits| && s.circuits[s.calls[id].circuit].tickets == 0
  }

  function Note(h: History, s: State, step: Step, id: nat): History {
    if step.NewCall? then
      if |s.calls| == id then h.(request := Some(Request(step.name, step.hasFallback, step.timeout))) else h
    else if !HasCall(step) || step.id != id then h
    else
      match step
      case EndContext(_, err) => h.(context := Some(err))
      case RunReturns(_, result) => h.(returned := Some(result))
      case AllowRequest(_, allowed) => if allowed then h else h.(ended := Refused)
      case TakeTicket(_) => if Exhausted(s, id) then h.(ended := NoTicket) else h
      case ArmTimer(_, _) => h.(armedAt := Some(s.clock))
      case ReceiveResult(_) => h.(ended := RunEnded, endedAt := s.clock)
      case ReceiveDone(_) => h.(ended := ContextEnded, endedAt := s.clock)
      case ReceiveTick(_) => h.(ended := TimerEnded, endedAt := s.clock)
      case ClassifyError(_) => h.(judged := h.context)
      case TryFallback(_, result) => h.(fellBack := Some(result))
      case _ => h
  }

  /** The history of call `id` in the first `n` steps. */
  function HistoryOf(trace: seq<State>, steps: seq<Step>, n: nat, id: nat): History
    requires n <= |steps| == |trace| - 1
  {
    if n == 0 then BLANK else Note(HistoryOf(trace, steps, n - 1, id), trace[n - 1], steps[n - 1], id)
  }

  /** The call is where its history has brought it. */
  predicate Follows(c: Call, h: History) {
    && h.request == Some(Request(c.name, c.hasFallback, c.timeout))
    && c.ending == h.ended && c.endedAt == h.endedAt
    && c.deadline == (if h.armedAt.Some? then h.armedAt.value + c.timeout else 0)
    && (c.timer.Some? || c.ending.TimerEnded? ==> h.armedAt.Some?)
    && c.ctx == h.context && c.judged == h.judged
    && h.returned == (match c.run
                      case Finished(_, result) => Some(result)
                      case Sent(result) => Some(result)
                      case _ => None)
    && c.fallback == (if c.hasFallback then h.fellBack else None)
  }

  predicate Tracked(s: State, id: nat, h: History) {
    if id < |s.calls| then Follows(s.calls[id], h) else h == BLANK
  }

  predicate EarlyStep(step: Step) { step.GetCircuit? || step.AcquireChannel? || step.Spawn? }

  predicate LateStep(step: Step) {
    step.ReleaseChannel? || step.ClassifyError? || step.TryFallback? || step.ReportEvent? || step.ReleaseTimer?
  }

  lemma EarlyStepFollows(s: State, step: Step, h: History)
    requires Enabled(s, step) && EarlyStep(step) && Follows(s.calls[step.id], h)
    requires step.Spawn? ==> s.calls[step.id].run.NotStarted?
    ensures Follows(NextCall(s, step), Note(h, s, step, step.id))
  {
  }

  lemma AnswerFollows(s: State, id: nat, allowed: bool, h: History)
    requires Enabled(s, AllowRequest(id, allowed)) && Follows(s.calls[id], h)
    ensures Follows(NextCall(s, AllowRequest(id, allowed)), Note(h, s, AllowRequest(id, allowed), id))
  {
  }

  lemma TicketFollows(s: State, id: nat, h: History)
    requires Enabled(s, TakeTicket(id)) && Follows(s.calls[id], h)
    ensures Follows(NextCall(s, TakeTicket(id)), Note(h, s, TakeTicket(id), id))
  {
    var c, c' := s.calls[id], NextCall(s, TakeTicket(id));
    assert c' == if Exhausted(s, id) then c.(pc := Failing(MaxConcurrency), ending := NoTicket) else c.(pc := Acquiring, ticket := true);
  }

  lemma LateStepFollows(s: State, step: Step, h: History)
    requires Enabled(s, step) && LateStep(step) && Follows(s.calls[step.id], h)
    ensures Follows(NextCall(s, step), Note(h, s, step, step.id))
  {
  }

  lemma InnerStepFollows(s: State, step: Step, h: History)
    requires Enabled(s, step) && HasCall(step) && Follows(s.calls[step.id], h)
    requires !EarlyStep(step) && !LateStep(step) && !step.AllowRequest? && !step.TakeTicket?
    ensures Follows(NextCall(s, step), Note(h, s, step, step.id))
  {
  }

  lemma CallFollows(s: State, step: Step, h: History)
    requires Enabled(s, step) && HasCall(step) && Local(s.calls[step.id]) && Follows(s.calls[step.id], h)
    ensures Follows(NextCall(s, step), Note(h, s, step, step.id))
  {
    if EarlyStep(step) {
      EarlyStepFollows(s, step, h);
    } else if LateStep(step) {
      LateStepFollows(s, step, h);
    } else if step.AllowRequest? {
      AnswerFollows(s, step.id, step.allowed, h);
    } else if step.TakeTicket? {
      TicketFollows(s, step.id, h);
    } else {
      InnerStepFollows(s, step, h);
    }
  }

  lemma OthersFollow(s: State, step: Step, id: nat, h: History)
    requires Enabled(s, step) && id < |s.calls| && (HasCall(step) ==> step.id != id) && Follows(s.calls[id], h)
    ensures Tracked(Next(s, step), id, Note(h, s, step, id))
  {
    if HasCall(step) {
      SharedLeavesCalls(s, step);
    } else {
      WorldLeavesCalls(s, step);
    }
  }

  lemma NewCallFollows(s: State, step: Step, id: nat)
    requires Enabled(s, step) && id >= |s.calls|
    ensures Tracked(Next(s, step), id, Note(BLANK, s, step, id))
  {
    if HasCall(step) {
      SharedLeavesCalls(s, step);
    } else {
      WorldLeavesCalls(s, step);
    }
  }

  lemma StepTracked(s: State, step: Step, id: nat, h: History)
    requires Inv(s) && Enabled(s, step) && Tracked(s, id, h)
    ensures Tracked(Next(s, step), id, Note(h, s, step, id))
  {
    if id >= |s.calls| {
      NewCallFollows(s, step, id);
    } else if HasCall(step) && step.id == id {
      SharedLeavesCalls(s, step);
      assert Local(s.calls[id]);
      CallFollows(s, step, h);
    } else {
      OthersFollow(s, step, id, h);
    }
  }

  lemma RunStepTracked(trace: seq<State>, steps: seq<Step>, n: nat, id: nat, h: History)
    requires IsRun(trace, steps) && n < |steps| && Tracked(trace[n], id, h)
    ensures Tracked(trace[n + 1], id, Note(h, trace[n], steps[n], id))
  {
    RunInv(trace, steps, n);
    assert StepAt(trace, steps, n);
    StepTracked(trace[n], steps[n], id, h);
  }

  /** At every moment of every run, a call is where its history has brought it. */
  lemma {:induction false} CallsFollowHistory(trace: seq<State>, steps: seq<Step>, n: nat, id: nat)
    requires IsRun(trace, steps) && n <= |steps|
    ensures Tracked(trace[n], id, HistoryOf(trace, steps, n, id))
  {
    if n > 0 {
      CallsFollowHistory(trace, steps, n - 1, id);
      RunStepTracked(trace, steps, n - 1, id, HistoryOf(trace, steps, n - 1, id));
    }
  }

  // ---------- what a finished call reports and returns ----------

  /** The event for a call with this history. */
  predicate EventFor(h: History, primary: M.Primary) {
    match h.ended
    case Pending => false
    case Refused => primary.ShortCircuit?
    case NoTicket => primary.Rejected?
    case TimerEnded => primary.TimedOut?
    case ContextEnded =>
      || (h.context == Some(Canceled) && primary.ContextCanceled?)
      || (h.context == Some(DeadlineExceeded) && primary.ContextDeadlineExceeded?)
    case RunEnded => h.returned.Some? && RunEventFits(h.returned.value, h.judged, primary)
  }

  /** The error a call with this history failed with. */
  predicate FailedWith(h: History, err: Error) {
    match h.ended
    case Pending => false
    case Refused => err == CircuitOpen
    case NoTicket => err == MaxConcurrency
    case TimerEnded => err == Timeout
    case ContextEnded => h.context == Some(err)
    case RunEnded => h.returned == Some(Fail(err))
  }

  predicate Succeeds(h: History) { h.ended.RunEnded? && h.returned == Some(Nil) }

  /** What a call with this history returns. */
  predicate ResultFor(h: History, hasFallback: bool, result: Result) {
    if Succeeds(h) then result == Nil
    else if !hasFallback then result.Fail? && FailedWith(h, result.err)
    else
      h.fellBack.Some? &&
      match h.fellBack.value
      case Nil => result == Nil
      case Fail(failure) =>
        result.Fail? && result.err.Wrapped? && result.err.fallback == failure && FailedWith(h, result.err.run)
  }

  /** What a call with this history reports of its fallback. */
  predicate SecondaryFor(h: History, hasFallback: bool, secondary: M.Secondary) {
    if Succeeds(h) || !hasFallback then secondary.NoFallback?
    else h.fellBack.Some? && secondary == if h.fellBack.value.Nil? then M.FallbackSuccess else M.FallbackFailure
  }

  /** A call that is back has reported the event for its history, called its fallback once
      if it has one and did not succeed, and returned what its history says; and if it timed
      out, its full time had passed since its timer was armed. */
  lemma FinishedCallDoesAsTold(trace: seq<State>, steps: seq<Step>, n: nat, id: nat)
    requires IsRun(trace, steps) && n <= |steps| && id < |trace[n].calls| && trace[n].calls[id].pc.Back?
    ensures var c, h := trace[n].calls[id], HistoryOf(trace, steps, n, id);
            && h.request == Some(Request(c.name, c.hasFallback, c.timeout))
            && c.reported.Some? && EventFor(h, c.reported.value.0) && SecondaryFor(h, c.hasFallback, c.reported.value.1)
            && (c.reported.value.0.Success? <==> Succeeds(h))
            && c.fallbackCalls == (if c.hasFallback && !Succeeds(h) then 1 else 0)
            && ResultFor(h, c.hasFallback, c.pc.result)
            && (h.ended.TimerEnded? ==> h.armedAt.Some? && h.endedAt >= h.armedAt.value + c.timeout)
  {
    CallsFollowHistory(trace, steps, n, id);
    RunInv(trace, steps, n);
    FinishedFits(trace[n].calls[id], HistoryOf(trace, steps, n, id));
  }

  lemma FinishedFits(c: Call, h: History)
    requires Local(c) && c.pc.Back? && Follows(c, h)
    ensures c.reported.Some? && EventFor(h, c.reported.value.0) && SecondaryFor(h, c.hasFallback, c.reported.value.1)
    ensures c.reported.value.0.Success? <==> Succeeds(h)
    ensures c.fallbackCalls == if c.hasFallback && !Succeeds(h) then 1 else 0
    ensures ResultFor(h, c.hasFallback, c.pc.result)
    ensures h.ended.TimerEnded? ==> h.armedAt.Some? && h.endedAt >= h.armedAt.value + c.timeout
  {
    assert c.ending.RunEnded? ==> c.received.Some? && c.run == Sent(c.received.value);
    assert c.received.Some? ==> c.ending.RunEnded?;
  }

  // ---------- refused calls ----------

  predicate WasRefused(steps: seq<Step>, n: nat, id: nat)
    requires n <= |steps|
  {
    exists k :: 0 <= k < n && steps[k] == AllowRequest(id, false)
  }

  predicate FoundNoTicket(trace: seq<State>, steps: seq<Step>, n: nat, id: nat)
    requires n <= |steps| == |trace| - 1
  {
    exists k :: 0 <= k < n && steps[k] == TakeTicket(id) && Exhausted(trace[k], id)
  }

  predicate EndedAs(s: State, id: nat, ending: Ending) { id < |s.calls| && s.calls[id].ending == ending }

  lemma CallRefused(s: State, step: Step)
    requires Enabled(s, step) && HasCall(step) && Local(s.calls[step.id])
    ensures NextCall(s, step).ending.Refused? <==> s.calls[step.id].ending.Refused? || step == AllowRequest(step.id, false)
    ensures NextCall(s, step).ending.NoTicket?
       <==> s.calls[step.id].ending.NoTicket? || (step == TakeTicket(step.id) && Exhausted(s, step.id))
  {
  }

  lemma EndingLeft(s: State, step: Step, id: nat, ending: Ending)
    requires Enabled(s, step) && (HasCall(step) ==> step.id != id) && ending != Pending
    ensures EndedAs(Next(s, step), id, ending) <==> EndedAs(s, id, ending)
  {
    if HasCall(step) {
      SharedLeavesCalls(s, step);
    } else {
      WorldLeavesCalls(s, step);
    }
  }

  lemma OwnEnding(s: State, step: Step, ending: Ending)
    requires Enabled(s, step) && HasCall(step)
    ensures EndedAs(Next(s, step), step.id, ending) <==> NextCall(s, step).ending == ending
  {
    SharedLeavesCalls(s, step);
  }

  lemma StepRefusesOwn(s: State, step: Step)
    requires Inv(s) && Enabled(s, step) && HasCall(step)
    ensures EndedAs(Next(s, step), step.id, Refused) <==> EndedAs(s, step.id, Refused) || step == AllowRequest(step.id, false)
    ensures EndedAs(Next(s, step), step.id, NoTicket)
       <==> EndedAs(s, step.id, NoTicket) || (step == TakeTicket(step.id) && Exhausted(s, step.id))
  {
    OwnEnding(s, step, Refused);
    OwnEnding(s, step, NoTicket);
    assert Local(s.calls[step.id]);
    CallRefused(s, step);
  }

  /** A call is refused by this step, or finds no ticket, and by no other; and it stays so. */
  lemma StepRefuses(s: State, step: Step, id: nat)
    requires Inv(s) && Enabled(s, step)
    ensures EndedAs(Next(s, step), id, Refused) <==> EndedAs(s, id, Refused) || step == AllowRequest(id, false)
    ensures EndedAs(Next(s, step), id, NoTicket) <==> EndedAs(s, id, NoTicket) || (step == TakeTicket(id) && Exhausted(s, id))
  {
    if HasCall(step) && step.id == id {
      StepRefusesOwn(s, step);
    } else {
      EndingLeft(s, step, id, Refused);
      EndingLeft(s, step, id, NoTicket);
    }
  }

  lemma RunStepRefuses(trace: seq<State>, steps: seq<Step>, n: nat, id: nat)
    requires IsRun(trace, steps) && n < |steps|
    ensures EndedAs(trace[n + 1], id, Refused) <==> EndedAs(trace[n], id, Refused) || steps[n] == AllowRequest(id, false)
    ensures EndedAs(trace[n + 1], id, NoTicket)
       <==> EndedAs(trace[n], id, NoTicket) || (steps[n] == TakeTicket(id) && Exhausted(trace[n], id))
  {
    RunInv(trace, steps, n);
    assert StepAt(trace, steps, n);
    StepRefuses(trace[n], steps[n], id);
  }

  /** Refused is who was refused, and nobody else. */
  lemma {:induction false} RefusedIff(trace: seq<State>, steps: seq<Step>, n: nat, id: nat)
    requires IsRun(trace, steps) && n <= |steps|
    ensures EndedAs(trace[n], id, Refused) <==> WasRefused(steps, n, id)
  {
    if n > 0 {
      RefusedIff(trace, steps, n - 1, id);
      RunStepRefuses(trace, steps, n - 1, id);
    }
  }

  /** Without a ticket is who asked for one when none was left, and nobody else. */
  lemma {:induction false} NoTicketIff(trace: seq<State>, steps: seq<Step>, n: nat, id: nat)
    requires IsRun(trace, steps) && n <= |steps|
    ensures EndedAs(trace[n], id, NoTicket) <==> FoundNoTicket(trace, steps, n, id)
  {
    if n > 0 {
      NoTicketIff(trace, steps, n - 1, id);
      RunStepRefuses(trace, steps, n - 1, id);
    }
  }

  /** A call that the breaker refuses, or that finds no ticket, never runs and never has a
      ticket, and reports just that when it is back. */
  lemma RefusedNeverRuns(trace: seq<State>, steps: seq<Step>, n: nat, id: nat)
    requires IsRun(trace, steps) && n <= |steps|
    requires WasRefused(steps, n, id) || FoundNoTicket(trace, steps, n, id)
    ensures id < |trace[n].calls|
    ensures var c := trace[n].calls[id];
            && c.run.NotStarted? && !c.ticket
            && (c.pc.Back? && WasRefused(steps, n, id) ==> c.reported.Some? && c.reported.value.0.ShortCircuit?)
            && (c.pc.Back? && FoundNoTicket(trace, steps, n, id) ==> c.reported.Some? && c.reported.value.0.Rejected?)
  {
    RefusedIff(trace, steps, n, id);
    NoTicketIff(trace, steps, n, id);
    RunInv(trace, steps, n);
    assert Local(trace[n].calls[id]);
  }

  // ---------- the events of a circuit ----------

  function Kinds(reports: seq<M.Primary>, p: M.Primary): nat {
    if reports == [] then 0 else Kinds(reports[..|reports| - 1], p) + if reports[|reports| - 1] == p then 1 else 0
  }

  lemma KindsAppend(reports: seq<M.Primary>, report: M.Primary, p: M.Primary)
    ensures Kinds(reports + [report], p) == Kinds(reports, p) + if report == p then 1 else 0
  {
    assert (reports + [report])[..|reports|] == reports;
  }

  /** Circuit `k` has on record each event of kind `p` that its calls reported. */
  predicate KindAdds(s: State, k: nat, p: M.Primary) {
    k < |s.circuits| ==> Kinds(s.circuits[k].reports, p) == Count(s.calls, k, OfKind(p))
  }

  lemma QuietStepKeepsKinds(s: State, step: Step, k: nat, p: M.Primary)
    requires Enabled(s, step) && HasCall(step) && !step.ReportEvent? && Local(s.calls[step.id])
    ensures Weight(NextCall(s, step), k, OfKind(p)) == Weight(s.calls[step.id], k, OfKind(p))
    ensures k < |s.circuits| ==> k < |NextShared(s, step).circuits|
    ensures k < |s.circuits| ==> NextShared(s, step).circuits[k].reports == s.circuits[k].reports
  {
  }

  lemma ReportChanges(s: State, step: Step)
    requires Enabled(s, step) && step.ReportEvent? && Local(s.calls[step.id])
    ensures var c, c' := s.calls[step.id], NextCall(s, step);
            var circuit := s.circuits[c.circuit];
            && NextShared(s, step).circuits == s.circuits[c.circuit := circuit.(reports := circuit.reports + [c.pc.primary])]
            && c.reported.None? && c'.reported.Some? && c'.reported.value.0 == c.pc.primary
            && c'.circuit == c.circuit && !c'.pc.Start?
  {
  }

  lemma ReportAddsKind(s: State, step: Step, k: nat, p: M.Primary)
    requires Enabled(s, step) && step.ReportEvent? && Local(s.calls[step.id]) && k < |s.circuits|
    ensures var s' := NextShared(s, step);
            && |s'.circuits| == |s.circuits|
            && Kinds(s'.circuits[k].reports, p) + Weight(s.calls[step.id], k, OfKind(p))
            == Kinds(s.circuits[k].reports, p) + Weight(NextCall(s, step), k, OfKind(p))
  {
    ReportChanges(s, step);
    var c := s.calls[step.id];
    KindsAppend(s.circuits[c.circuit].reports, c.pc.primary, p);
  }

  lemma NewCircuitHasNoKind(s: State, k: nat, p: M.Primary)
    requires Inv(s) && k >= |s.circuits|
    ensures Count(s.calls, k, OfKind(p)) == 0
  {
    forall i | 0 <= i < |s.calls| ensures s.calls[i].pc.Start? || s.calls[i].circuit < k {
      assert Owns(s, s.calls[i]);
    }
    CountOfNewCircuit(s.calls, k, OfKind(p));
  }

  lemma KindAddsAfter(before: State, shared: State, id: nat, c: Call, k: nat, p: M.Primary)
    requires id < |before.calls| && shared.calls == before.calls && k < |shared.circuits|
    requires Kinds(shared.circuits[k].reports, p) + Weight(before.calls[id], k, OfKind(p))
          == Count(before.calls, k, OfKind(p)) + Weight(c, k, OfKind(p))
    ensures KindAdds(Put(shared, id, c), k, p)
  {
    CountAfterUpdate(before.calls, id, c, k, OfKind(p));
  }

  lemma KindMoves(s: State, step: Step, k: nat, p: M.Primary)
    requires Inv(s) && Enabled(s, step) && HasCall(step) && k < |NextShared(s, step).circuits| && KindAdds(s, k, p)
    ensures Kinds(NextShared(s, step).circuits[k].reports, p) + Weight(s.calls[step.id], k, OfKind(p))
         == Count(s.calls, k, OfKind(p)) + Weight(NextCall(s, step), k, OfKind(p))
  {
    assert Local(s.calls[step.id]);
    if k >= |s.circuits| {
      NewCircuitOnlyAtEnd(s, step);
      NewCircuitHasNoKind(s, k, p);
      QuietStepKeepsKinds(s, step, k, p);
    } else if step.ReportEvent? {
      ReportAddsKind(s, step, k, p);
    } else {
      QuietStepKeepsKinds(s, step, k, p);
    }
  }

  lemma CallStepKeepsKinds(s: State, step: Step, k: nat, p: M.Primary)
    requires Inv(s) && Enabled(s, step) && HasCall(step) && KindAdds(s, k, p)
    ensures KindAdds(Next(s, step), k, p)
  {
    SharedLeavesCalls(s, step);
    if k < |NextShared(s, step).circuits| {
      KindMoves(s, step, k, p);
      KindAddsAfter(s, NextShared(s, step), step.id, NextCall(s, step), k, p);
    }
  }

  lemma WorldStepKeepsKinds(s: State, step: Step, k: nat, p: M.Primary)
    requires Enabled(s, step) && !HasCall(step) && KindAdds(s, k, p)
    ensures KindAdds(Next(s, step), k, p)
  {
    WorldLeavesCalls(s, step);
    if step.NewCall? {
      NewCallIsLocal(s, step.name, step.hasFallback, step.timeout);
    }
  }

  lemma RunStepKeepsKinds(trace: seq<State>, steps: seq<Step>, n: nat, k: nat, p: M.Primary)
    requires IsRun(trace, steps) && n < |steps| && KindAdds(trace[n], k, p)
    ensures KindAdds(trace[n + 1], k, p)
  {
    RunInv(trace, steps, n);
    assert StepAt(trace, steps, n);
    if HasCall(steps[n]) {
      CallStepKeepsKinds(trace[n], steps[n], k, p);
    } else {
      WorldStepKeepsKinds(trace[n], steps[n], k, p);
    }
  }

  lemma {:induction false} KindsAdd(trace: seq<State>, steps: seq<Step>, n: nat, k: nat, p: M.Primary)
    requires IsRun(trace, steps) && n <= |steps|
    ensures KindAdds(trace[n], k, p)
  {
    if n > 0 {
      KindsAdd(trace, steps, n - 1, k, p);
      RunStepKeepsKinds(trace, steps, n - 1, k, p);
    }
  }

  /** At every moment, the events of each kind that a circuit object has on record are those
      its calls have reported, call by call. */
  lemma EventsAreTheCalls(trace: seq<State>, steps: seq<Step>, n: nat, k: nat, p: M.Primary)
    requires IsRun(trace, steps) && n <= |steps| && k < |trace[n].circuits|
    ensures Kinds(trace[n].circuits[k].reports, p) == Count(trace[n].calls, k, OfKind(p))
  {
    KindsAdd(trace, steps, n, k, p);
  }

  // ---------- which circuit a call gets ----------

  lemma StepKeepsRegistered(s: State, step: Step, name: string)
    requires Enabled(s, step) && !step.Flush? && name in s.registry
    ensures name in Next(s, step).registry && Next(s, step).registry[name] == s.registry[name]
  {
  }

  lemma {:induction false} StaysRegistered(trace: seq<State>, steps: seq<Step>, m: nat, n: nat, name: string)
    requires IsRun(trace, steps) && m <= n <= |steps| && name in trace[m].registry
    requires forall k :: m <= k < n ==> steps[k] != Flush
    ensures name in trace[n].registry && trace[n].registry[name] == trace[m].registry[name]
    decreases n
  {
    if m < n {
      StaysRegistered(trace, steps, m, n - 1, name);
      assert StepAt(trace, steps, n - 1);
      StepKeepsRegistered(trace[n - 1], steps[n - 1], name);
    }
  }

  lemma GetsRegistered(s: State, id: nat, max: nat)
    requires Enabled(s, GetCircuit(id, max))
    ensures var s' := Next(s, GetCircuit(id, max));
            && s.calls[id].name in s'.registry && s'.calls[id].circuit == s'.registry[s.calls[id].name]
            && (s.calls[id].name in s.registry ==> s'.registry == s.registry)
  {
  }

  /** Calls that ask for one name with no flush in between get the same circuit. */
  lemma SameNameSameCircuit(trace: seq<State>, steps: seq<Step>, m: nat, n: nat, i: nat, j: nat, max: nat, max': nat)
    requires IsRun(trace, steps) && m < n < |steps| && steps[m] == GetCircuit(i, max) && steps[n] == GetCircuit(j, max')
    requires i < |trace[m].calls| && j < |trace[n].calls| && trace[m].calls[i].name == trace[n].calls[j].name
    requires forall k :: m < k < n ==> steps[k] != Flush
    ensures i < |trace[m + 1].calls| && j < |trace[n + 1].calls|
    ensures trace[m + 1].calls[i].circuit == trace[n + 1].calls[j].circuit
  {
    assert StepAt(trace, steps, m) && StepAt(trace, steps, n);
    GetsRegistered(trace[m], i, max);
    StaysRegistered(trace, steps, m + 1, n, trace[m].calls[i].name);
    GetsRegistered(trace[n], j, max');
  }

  lemma StepKeepsSize(s: State, step: Step, k: nat)
    requires Enabled(s, step) && k < |s.circuits|
    ensures k < |Next(s, step).circuits|
    ensures Next(s, step).circuits[k].max == s.circuits[k].max && Next(s, step).circuits[k].name == s.circuits[k].name
  {
    if HasCall(step) {
      CircuitsOnlyGrow(s, step);
    }
  }

  lemma {:induction false} StaysOfSize(trace: seq<State>, steps: seq<Step>, m: nat, n: nat, k: nat)
    requires IsRun(trace, steps) && m <= n <= |steps| && k < |trace[m].circuits|
    ensures k < |trace[n].circuits|
    ensures trace[n].circuits[k].max == trace[m].circuits[k].max && trace[n].circuits[k].name == trace[m].circuits[k].name
    decreases n
  {
    if m < n {
      StaysOfSize(trace, steps, m, n - 1, k);
      assert StepAt(trace, steps, n - 1);
      StepKeepsSize(trace[n - 1], steps[n - 1], k);
    }
  }

  lemma MakesCircuit(s: State, id: nat, max: nat)
    requires Enabled(s, GetCircuit(id, max)) && s.calls[id].name !in s.registry
    ensures var s' := Next(s, GetCircuit(id, max));
            && s'.calls[id].circuit == |s.circuits| < |s'.circuits|
            && s'.circuits[|s.circuits|] == Circuit(s.calls[id].name, max, max, [])
  {
  }

  /** A call that finds no circuit under its name makes one, whose pool is full at first and
      keeps its size for good. */
  lemma CircuitIsMadeAsAsked(trace: seq<State>, steps: seq<Step>, m: nat, n: nat, id: nat, max: nat)
    requires IsRun(trace, steps) && m < n <= |steps| && steps[m] == GetCircuit(id, max)
    requires id < |trace[m].calls| && trace[m].calls[id].name !in trace[m].registry
    ensures id < |trace[m + 1].calls| && trace[m + 1].calls[id].circuit < |trace[m + 1].circuits|
    ensures var k := trace[m + 1].calls[id].circuit;
            && trace[m + 1].circuits[k].tickets == max
            && k < |trace[n].circuits| && trace[n].circuits[k].max == max && trace[n].circuits[k].name == trace[m].calls[id].name
  {
    assert StepAt(trace, steps, m);
    MakesCircuit(trace[m], id, max);
    StaysOfSize(trace, steps, m + 1, n, trace[m + 1].calls[id].circuit);
  }

  /** Nothing made before there were `k` circuits can still be got, by call `j` in particular. */
  predicate OnlyFrom(s: State, k: nat, j: nat) {
    && k <= |s.circuits|
    && (forall name :: name in s.registry ==> s.registry[name] >= k)
    && (j < |s.calls| ==> s.calls[j].pc.Start? || s.calls[j].circuit >= k)
  }

  lemma SharedStaysFrom(s: State, step: Step, k: nat)
    requires Enabled(s, step) && HasCall(step) && k <= |s.circuits|
    requires forall name :: name in s.registry ==> s.registry[name] >= k
    ensures k <= |NextShared(s, step).circuits|
    ensures forall name :: name in NextShared(s, step).registry ==> NextShared(s, step).registry[name] >= k
  {
  }

  lemma CallStaysFrom(s: State, step: Step, k: nat)
    requires Enabled(s, step) && HasCall(step) && OnlyFrom(s, k, step.id)
    ensures NextCall(s, step).pc.Start? || NextCall(s, step).circuit >= k
  {
    if !s.calls[step.id].pc.Start? {
      NextCallKeepsCircuit(s, step);
    }
  }

  lemma StepStaysFrom(s: State, step: Step, k: nat, j: nat)
    requires Enabled(s, step) && OnlyFrom(s, k, j)
    ensures OnlyFrom(Next(s, step), k, j)
  {
    if HasCall(step) {
      SharedLeavesCalls(s, step);
      SharedStaysFrom(s, step, k);
      if step.id == j {
        CallStaysFrom(s, step, k);
      }
    } else {
      WorldLeavesCalls(s, step);
      if step.NewCall? {
        NewCallIsLocal(s, step.name, step.hasFallback, step.timeout);
      }
    }
  }

  lemma {:induction false} StaysFrom(trace: seq<State>, steps: seq<Step>, m: nat, n: nat, k: nat, j: nat)
    requires IsRun(trace, steps) && m <= n <= |steps| && OnlyFrom(trace[m], k, j)
    ensures OnlyFrom(trace[n], k, j)
    decreases n
  {
    if m < n {
      StaysFrom(trace, steps, m, n - 1, k, j);
      assert StepAt(trace, steps, n - 1);
      StepStaysFrom(trace[n - 1], steps[n - 1], k, j);
    }
  }

  /** A call that got its circuit before a flush and one that gets its own after it never
      share a circuit object. */
  lemma FlushSeparates(trace: seq<State>, steps: seq<Step>, f: nat, n: nat, i: nat, j: nat, a: nat, b: nat)
    requires IsRun(trace, steps) && f < n <= |steps| && steps[f] == Flush
    requires DealsWith(trace[f], i, a) && (j < |trace[f].calls| ==> trace[f].calls[j].pc.Start?) && DealsWith(trace[n], j, b)
    ensures a < |trace[f].circuits| <= b
  {
    RunInv(trace, steps, f);
    assert Owns(trace[f], trace[f].calls[i]);
    assert StepAt(trace, steps, f);
    StaysFrom(trace, steps, f + 1, n, |trace[f].circuits|, j);
  }

  // ---------- no call is stuck ----------

  /** What a call does next, when it is not waiting in its `select` and not back. */
  function NextMove(c: Call, id: nat): Step
    requires !c.pc.Selecting? && !c.pc.Back?
  {
    match c.pc
    case Start => GetCircuit(id, 0)
    case Asking => AllowRequest(id, true)
    case Taking => TakeTicket(id)
    case Acquiring => AcquireChannel(id, None)
    case Spawning => Spawn(id)
    case Arming => ArmTimer(id, None)
    case Returning(_) => ReturnTicket(id)
    case Releasing(_) => ReleaseChannel(id)
    case Failing(_) => ClassifyError(id)
    case FallingBack(_, _) => TryFallback(id, Nil)
    case Reporting(_, _, _) => ReportEvent(id)
    case Leaving(_) => ReleaseTimer(id)
  }

  /** No call is ever stuck: it can always make its next move, and in its `select` it has a
      timer that has fired, or will once the clock has reached its deadline. */
  lemma NoCallIsStuck(trace: seq<State>, steps: seq<Step>, n: nat, id: nat)
    requires IsRun(trace, steps) && n <= |steps| && id < |trace[n].calls| && !trace[n].calls[id].pc.Back?
    ensures var s, c := trace[n], trace[n].calls[id];
            if !c.pc.Selecting? then Enabled(s, NextMove(c, id))
            else c.timer.Some? &&
                 (Enabled(s, ReceiveTick(id)) || Enabled(s, TimerFires(c.timer.value)) || s.clock < c.deadline)
  {
    RunInv(trace, steps, n);
    var c := trace[n].calls[id];
    assert Local(c) && Owns(trace[n], c);
    if c.pc.Returning? {
      ReturnNeverBlocks(trace, steps, n, id);
    }
  }
}
