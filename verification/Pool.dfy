/** The ticket pool of one circuit and its two rolling statistics.

    Tickets are pointers to empty structs, which nothing tells apart, so the channel of
    tickets is the number of tickets in it. */
module Pool {
  import opened RollingNumber

  // ---------- the pool in memory ----------

  class ExecutorPool {
    const max: nat
    const maxActiveRequests: Number
    const executed: Number
    var tickets: nat

    ghost predicate Valid()
      reads this
    {
      tickets <= max && maxActiveRequests.Valid() && executed.Valid() && maxActiveRequests.buckets != executed.buckets
    }

    ghost function Contents(): State
      requires Valid()
      reads this, maxActiveRequests.buckets, executed.buckets
    {
      State(max, tickets, executed.Contents(), maxActiveRequests.Contents())
    }

    constructor (maxRequests: nat)
      ensures Valid() && fresh(maxActiveRequests.buckets) && fresh(executed.buckets)
      ensures Contents() == Initial(maxRequests)
    {
      max, tickets := maxRequests, maxRequests;
      maxActiveRequests := new Number();
      executed := new Number();
    }

    /** The `select` of a command: a ticket if one is free, at once. */
    method TakeTicket() returns (taken: bool)
      requires Valid()
      modifies this`tickets
      ensures Valid() && taken == (old(tickets) > 0)
      ensures Contents() == if taken then Taken(old(Contents())) else old(Contents())
    {
      taken := tickets > 0;
      if taken {
        tickets := tickets - 1;
      }
    }

    function ActiveCount(): int
      reads this
    {
      max - tickets
    }

    /** A command without a ticket returns nothing.  Sending a ticket back needs room in the
        channel; `Commands` proves that there always is. */
    method Return(hasTicket: bool, now: nat)
      requires Valid() && (hasTicket ==> tickets < max)
      modifies this`tickets, maxActiveRequests.buckets, executed.buckets
      ensures Valid()
      ensures Contents() == if hasTicket then Returned(old(Contents()), now) else old(Contents())
    {
      if !hasTicket {
        return;
      }
      executed.IncrementAt(now, 1);
      maxActiveRequests.UpdateMaxAt(now, ActiveCount());
      tickets := tickets + 1;
    }

    method ResetMetrics()
      requires Valid()
      modifies maxActiveRequests.buckets, executed.buckets
      ensures Valid() && Contents() == old(Contents()).(executed := EMPTY, maxActive := EMPTY)
    {
      maxActiveRequests.Reset();
      executed.Reset();
    }
  }

  // ---------- what the operations do ----------

  datatype State = State(max: nat, tickets: nat, executed: Ring, maxActive: Ring)

  function Initial(max: nat): State { State(max, max, EMPTY, EMPTY) }

  function Active(s: State): int { s.max - s.tickets }

  function Taken(s: State): State
    requires s.tickets > 0
  {
    s.(tickets := s.tickets - 1)
  }

  function Returned(s: State, now: nat): State {
    s.(tickets := s.tickets + 1,
       executed := Bump(s.executed, now, 1),
       maxActive := Raise(s.maxActive, now, Active(s)))
  }

  // ---------- whole runs ----------

  datatype Op = Take | Give(now: nat) | Clear

  function After(ops: seq<Op>, max: nat): State {
    if ops == [] then Initial(max)
    else
      var s := After(ops[..|ops| - 1], max);
      match ops[|ops| - 1]
      case Take => if s.tickets > 0 then Taken(s) else s
      case Give(now) => if s.tickets < s.max then Returned(s, now) else s
      case Clear => s.(executed := EMPTY, maxActive := EMPTY)
  }

  /** How many tickets are out, counting from the calls alone: a ticket is granted as long as
      fewer than `max` are out. */
  function Out(ops: seq<Op>, max: nat): nat {
    if ops == [] then 0
    else
      var out := Out(ops[..|ops| - 1], max);
      match ops[|ops| - 1]
      case Take => if out < max then out + 1 else out
      case Give(_) => if out > 0 then out - 1 else 0
      case Clear => out
  }

  /** The active count is the number of tickets out, so the pool never grants one more than
      it has, and every return makes room for one. */
  lemma {:induction false} ActiveIsOut(ops: seq<Op>, max: nat)
    ensures After(ops, max).max == max && Active(After(ops, max)) == Out(ops, max) <= max
  {
    if ops != [] {
      ActiveIsOut(ops[..|ops| - 1], max);
    }
  }

  /** Every ticket given back had been taken. */
  predicate Balanced(ops: seq<Op>, max: nat) {
    ops == [] ||
    var init := ops[..|ops| - 1];
    Balanced(init, max) && (ops[|ops| - 1].Give? ==> Out(init, max) > 0)
  }

  /** The number of tickets out at each return since the last reset of the statistics. */
  function ActiveAtReturns(ops: seq<Op>, max: nat): seq<Entry> {
    if ops == [] || ops[|ops| - 1].Clear? then []
    else if ops[|ops| - 1].Take? then ActiveAtReturns(ops[..|ops| - 1], max)
    else ActiveAtReturns(ops[..|ops| - 1], max) + [Entry(ops[|ops| - 1].now, Out(ops[..|ops| - 1], max))]
  }

  /** Returns are in time order, give or take ten seconds. */
  predicate TimelyReturns(ops: seq<Op>, max: nat) {
    ops == [] ||
    var init := ops[..|ops| - 1];
    TimelyReturns(init, max) && (ops[|ops| - 1].Give? ==> ops[|ops| - 1].now >= Newest(ActiveAtReturns(init, max)) - 10)
  }

  /** The run as the counter of executions and as the maximum sees it. */
  function CountWrites(log: seq<Entry>): seq<RollingNumber.Op> {
    if log == [] then [] else CountWrites(log[..|log| - 1]) + [Write(log[|log| - 1].epoch, 1)]
  }

  function MaxWrites(log: seq<Entry>): seq<RollingNumber.Op> {
    if log == [] then [] else MaxWrites(log[..|log| - 1]) + [Write(log[|log| - 1].epoch, log[|log| - 1].amount)]
  }

  function Returns(log: seq<Entry>, now: int): nat {
    if log == [] then 0 else Returns(log[..|log| - 1], now) + if InWindow(log[|log| - 1].epoch, now) then 1 else 0
  }

  predicate TimelyLog(log: seq<Entry>) {
    log == [] ||
    var init := log[..|log| - 1];
    TimelyLog(init) && log[|log| - 1].epoch >= Newest(init) - 10
  }

  lemma AppendToLogs(log: seq<Entry>, e: Entry)
    ensures Log(MaxWrites(log + [e])) == Log(MaxWrites(log)) + [e]
    ensures Log(CountWrites(log + [e])) == Log(CountWrites(log)) + [Entry(e.epoch, 1)]
    ensures Timely(MaxWrites(log + [e])) <==> Timely(MaxWrites(log)) && e.epoch >= Newest(Log(MaxWrites(log))) - 10
    ensures Timely(CountWrites(log + [e])) <==> Timely(CountWrites(log)) && e.epoch >= Newest(Log(CountWrites(log))) - 10
  {
  }

  lemma AppendToWindow(log: seq<Entry>, e: Entry, now: int)
    ensures Newest(log + [e]) == Max(Newest(log), e.epoch)
    ensures WindowSum(log + [e], now) == WindowSum(log, now) + if InWindow(e.epoch, now) then e.amount else 0
  {
  }

  lemma {:induction false} WritesOfLog(log: seq<Entry>, now: int)
    ensures Log(MaxWrites(log)) == log
    ensures Newest(Log(CountWrites(log))) == Newest(log)
    ensures WindowSum(Log(CountWrites(log)), now) == Returns(log, now)
    ensures TimelyLog(log) ==> Timely(MaxWrites(log)) && Timely(CountWrites(log))
  {
    if log != [] {
      var init, last := log[..|log| - 1], log[|log| - 1];
      WritesOfLog(init, now);
      assert log == init + [last];
      AppendToLogs(init, last);
      AppendToWindow(Log(CountWrites(init)), Entry(last.epoch, 1), now);
    }
  }

  lemma AppendReturn(log: seq<Entry>, e: Entry)
    ensures SumRing(CountWrites(log + [e])) == Bump(SumRing(CountWrites(log)), e.epoch, 1)
    ensures MaxRing(MaxWrites(log + [e])) == Raise(MaxRing(MaxWrites(log)), e.epoch, e.amount)
    ensures TimelyLog(log + [e]) <==> TimelyLog(log) && e.epoch >= Newest(log) - 10
  {
  }

  /** What a run of the pool and the log of its returns have to do with each other. */
  predicate Follows(s: State, log: seq<Entry>, max: nat) {
    && s.max == max && s.tickets <= max
    && s.executed == SumRing(CountWrites(log))
    && s.maxActive == MaxRing(MaxWrites(log))
    && TimelyLog(log)
    && (forall e :: e in log ==> 1 <= e.amount <= max)
  }

  lemma {:induction false} RunFollowsLog(ops: seq<Op>, max: nat)
    requires Balanced(ops, max) && TimelyReturns(ops, max)
    ensures Follows(After(ops, max), ActiveAtReturns(ops, max), max)
  {
    if ops != [] {
      var init, op := ops[..|ops| - 1], ops[|ops| - 1];
      RunFollowsLog(init, max);
      ActiveIsOut(init, max);
      if op.Give? {
        AppendReturn(ActiveAtReturns(init, max), Entry(op.now, Out(init, max)));
      }
    }
  }

  lemma {:induction false} WindowMaxBounds(log: seq<Entry>, now: int, max: nat)
    requires forall e :: e in log ==> 1 <= e.amount <= max
    ensures 0 <= WindowMax(log, now) <= max
    ensures Returns(log, now) > 0 ==> WindowMax(log, now) >= 1
  {
    if log != [] {
      assert log[|log| - 1] in log;
      WindowMaxBounds(log[..|log| - 1], now, max);
    }
  }

  /** The two statistics agree: the counter is the number of returns of the last ten
      seconds, the maximum is the largest active count seen at one of them, and so lies
      between one and the size of the pool as soon as there was a return. */
  lemma StatisticsAgree(ops: seq<Op>, max: nat, now: int)
    requires Balanced(ops, max) && TimelyReturns(ops, max) && now >= Newest(ActiveAtReturns(ops, max))
    ensures var s, log := After(ops, max), ActiveAtReturns(ops, max);
            && VisibleSum(s.executed, now) == Returns(log, now)
            && VisibleMax(s.maxActive, now) == WindowMax(log, now)
            && (Returns(log, now) > 0 ==> 1 <= VisibleMax(s.maxActive, now) <= max)
  {
    var log := ActiveAtReturns(ops, max);
    RunFollowsLog(ops, max);
    WritesOfLog(log, now);
    SumRefinesLog(CountWrites(log), now);
    MaxRefinesLog(MaxWrites(log), now);
    WindowMaxBounds(log, now, max);
  }

  // ---------- the peak ----------

  function Largest(log: seq<Entry>): int {
    if log == [] then 0 else Max(Largest(log[..|log| - 1]), log[|log| - 1].amount)
  }

  /** The largest number of tickets out at once since the last reset of the statistics. */
  function Peak(ops: seq<Op>, max: nat): int {
    if ops == [] then 0
    else if ops[|ops| - 1].Clear? then Out(ops, max)
    else Max(Peak(ops[..|ops| - 1], max), Out(ops, max))
  }

  /** Although the active count is only sampled when a ticket comes back, no peak escapes:
      the peak is the largest sample or what is out right now. */
  lemma {:induction false} PeakIsSampled(ops: seq<Op>, max: nat)
    requires Balanced(ops, max)
    ensures Peak(ops, max) == Max(Largest(ActiveAtReturns(ops, max)), Out(ops, max))
  {
    if ops != [] {
      var init := ops[..|ops| - 1];
      PeakIsSampled(init, max);
      var log := ActiveAtReturns(ops, max);
      if ops[|ops| - 1].Give? {
        assert log[..|log| - 1] == ActiveAtReturns(init, max);
      }
    }
  }

  /** Once the pool is idle again, the largest active count on record is the true peak. */
  lemma IdlePoolHasRecordedItsPeak(ops: seq<Op>, max: nat)
    requires Balanced(ops, max) && Active(After(ops, max)) == 0
    ensures Largest(ActiveAtReturns(ops, max)) == Peak(ops, max)
  {
    PeakIsSampled(ops, max);
    ActiveIsOut(ops, max);
    LargestNonnegative(ActiveAtReturns(ops, max));
  }

  lemma {:induction false} LargestNonnegative(log: seq<Entry>)
    ensures Largest(log) >= 0
  {
    if log != [] {
      LargestNonnegative(log[..|log| - 1]);
    }
  }
}
