// What every step of the batch processor keeps, one concern at a time.
module ProcessorInvariant {
  import opened Wrappers
  import opened Lane
  import opened Processor

  // ---- the five parts ----

  function Sum3(s: State, weight: Removal -> int): int {
    Total(s.lanes.metrics.log, weight) + Total(s.lanes.logs.log, weight) + Total(s.lanes.traces.log, weight)
  }

  // Every lane explains its history, and the counters are the ledger's totals.
  ghost predicate Ledger(c: Config, s: State) {
    && LaneOk(c.maxQueue, s.lanes.metrics, s.Pending(Metrics))
    && LaneOk(c.maxQueue, s.lanes.logs, s.Pending(Logs))
    && LaneOk(c.maxQueue, s.lanes.traces, s.Pending(Traces))
    && s.submitted == |s.lanes.metrics.history| + |s.lanes.logs.history| + |s.lanes.traces.history|
    && s.exported == Sum3(s, ExportedOf)
    && s.dropped == Sum3(s, DroppedOf)
    && (s.flight.Some? ==>
          var f := s.flight.value; var l := s.At(f.kind);
          f.entry < |l.log| && BatchIs(l, f.entry, f.batch))
  }

  // The batch is the segment of the history its log entry names.
  ghost predicate BatchIs(l: Lane, entry: nat, batch: seq<Record>)
    requires entry < |l.log|
  {
    var r := l.log[entry];
    0 <= r.from < r.to <= |l.history| && batch == l.history[r.from..r.to]
  }

  // The lock is held exactly while a batch is in flight, and each actor is
  // where its state says.
  predicate Roles(s: State) {
    && (s.holder.Some? <==> s.flight.Some?)
    && (s.holder.Some? ==> s.holder.value !in s.waiting)
    && (s.loop.Flushing? <==> Background in s.waiting || s.holder == Some(Background))
    && (s.exit.FinalFlush? <==> Exiter in s.waiting || s.holder == Some(Exiter))
    && (s.closed <==> !s.exit.NotCalled?)
  }

  // Failures since the last success.
  function Trailing(vs: seq<Outcome>): nat {
    if vs == [] || !vs[|vs| - 1].Error? then 0 else 1 + Trailing(vs[..|vs| - 1])
  }

  // Number of runs of failures: an error that does not follow an error.
  function FailureRuns(vs: seq<Outcome>): nat {
    if vs == [] then 0
    else
      FailureRuns(vs[..|vs| - 1])
      + (if vs[|vs| - 1].Error? && (|vs| == 1 || !vs[|vs| - 2].Error?) then 1 else 0)
  }

  function LastError(vs: seq<Outcome>): Option<string> {
    if vs == [] then None
    else
      match vs[|vs| - 1]
      case Sent => None
      case Partial(_, message) => Some("partial success: " + message)
      case Error(message) => Some(message)
  }

  predicate Healthy(h: Health) {
    && h.failures == Trailing(h.verdicts)
    && h.warnings == FailureRuns(h.verdicts)
    && h.lastError == LastError(h.verdicts)
  }

  predicate Full(c: Config, s: State, k: Kind) {
    |s.At(k).queue| >= c.maxBatch
  }

  // A full queue has set the event.
  predicate Announced(c: Config, s: State, k: Kind) {
    Full(c, s, k) ==> s.wake
  }

  // Full queues are announced until the loop starts and while it waits, and during the loop's own
  // flush those it has already passed.
  predicate Wakeups(c: Config, s: State) {
    && (s.loop.Idle? || s.loop.NotStarted? ==>
          Announced(c, s, Metrics) && Announced(c, s, Logs) && Announced(c, s, Traces))
    && (s.holder == Some(Background) && s.flight.Some? ==>
          var i := Index(s.flight.value.kind);
          Announced(c, s, Metrics) && (i >= 1 ==> Announced(c, s, Logs)) && (i >= 2 ==> Announced(c, s, Traces)))
  }

  predicate Empty(s: State, k: Kind) {
    s.At(k).queue == []
  }

  // The final flush leaves empty queues behind it, and they stay empty.
  predicate Shutdown(s: State) {
    && (s.exit.Returned? ==> s.flight.None? && Empty(s, Metrics) && Empty(s, Logs) && Empty(s, Traces))
    && (s.holder == Some(Exiter) && s.flight.Some? ==>
          var i := Index(s.flight.value.kind);
          Empty(s, Metrics) && (i >= 1 ==> Empty(s, Logs)) && (i >= 2 ==> Empty(s, Traces)))
  }

  ghost predicate Inv(c: Config, s: State) {
    Ledger(c, s) && Roles(s) && Healthy(s.health) && Shutdown(s)
  }

  // The lock is held exactly while an export runs.
  lemma HeldMeansExporting(c: Config, s: State)
    requires Inv(c, s)
    ensures s.holder.Some? <==> Exporting(s)
  {
  }

  // ---- the loop of a flush ----

  // Advance drains the first non-empty queue from i on, or finishes when there is none.
  lemma AdvanceShape(s: State, i: nat) returns (j: nat)
    requires s.holder.Some?
    ensures i <= j
    ensures j < 3 ==> s.At(KINDS[j]).queue != [] && Advance(s, i) == Launch(s, KINDS[j])
    ensures j >= 3 ==> Advance(s, i) == Finish(s)
    ensures i <= 0 < j ==> Empty(s, Metrics)
    ensures i <= 1 < j ==> Empty(s, Logs)
    ensures i <= 2 < j ==> Empty(s, Traces)
    ensures Advance(s, i).health == s.health
    decreases 3 - i
  {
    if i >= 3 || s.At(KINDS[i]).queue != [] {
      j := i;
    } else {
      j := AdvanceShape(s, i + 1);
    }
  }

  // ---- the ledger ----

  lemma SubmitKeepsLedger(c: Config, s: State, k: Kind, rs: seq<Record>)
    requires Ledger(c, s)
    ensures Ledger(c, Submitted(c, s, k, rs))
  {
    hide LaneOk, Total, PutAll, Evictions;
    if !s.closed {
      var l := s.At(k);
      PutAllOk(c.maxQueue, l, rs, s.Pending(k));
      if s.Pending(k) >= 0 {
        var r := l.log[s.Pending(k)];
        SliceOfPrefix(l.history, rs, r.from, r.to);
      }
    }
  }

  lemma SliceOfPrefix(history: seq<Record>, rs: seq<Record>, from: int, to: int)
    requires 0 <= from <= to <= |history|
    ensures (history + rs)[from..to] == history[from..to]
  {
  }

  lemma LaunchKeepsLedger(c: Config, s: State, k: Kind)
    requires Ledger(c, s) && s.flight.None? && s.At(k).queue != []
    ensures Ledger(c, Launch(s, k))
  {
    hide LaneOk, Total;
    DrainOk(c.maxQueue, s.At(k));
  }

  lemma AdvanceKeepsLedger(c: Config, s: State, i: nat)
    requires Ledger(c, s) && s.holder.Some? && s.flight.None?
    ensures Ledger(c, Advance(s, i))
  {
    hide LaneOk, Total, Advance, Launch;
    var j := AdvanceShape(s, i);
    if j < 3 { LaunchKeepsLedger(c, s, KINDS[j]); }
  }

  // A resolved batch moves from in flight to exported, rejected or dropped.
  lemma SettledKeepsLedger(c: Config, s: State, o: Outcome)
    requires Ledger(c, s) && Exporting(s)
    ensures Ledger(c, Settled(s, o))
    ensures Settled(s, o).holder == s.holder && Settled(s, o).flight.None?
  {
    hide LaneOk, Total;
    var f := s.flight.value;
    SettleOk(c.maxQueue, s.At(f.kind), f.entry, FateOf(o));
  }

  lemma CancelKeepsLedger(c: Config, s: State)
    requires Ledger(c, s) && Exporting(s)
    ensures Ledger(c, CancelExport(s))
  {
    hide LaneOk, Total;
    var f := s.flight.value;
    SettleOk(c.maxQueue, s.At(f.kind), f.entry, Cancelled);
  }

  lemma StepKeepsLedger(c: Config, s: State, e: Event)
    requires Inv(c, s) && Enabled(s, e)
    ensures Ledger(c, Step(c, s, e))
  {
    hide LaneOk, Total, Advance, Settled, Submitted, CancelExport;
    match e
    case Submit(k, rs) => SubmitKeepsLedger(c, s, k, rs);
    case Acquire(t) => AdvanceKeepsLedger(c, s.(waiting := s.waiting - {t}, holder := Some(t)), 0);
    case Resolve(o) =>
      SettledKeepsLedger(c, s, o);
      AdvanceKeepsLedger(c, Settled(s, o), Index(s.flight.value.kind) + 1);
    case Cancel(t) => if t !in s.waiting && s.holder == Some(t) { CancelKeepsLedger(c, s); }
    case _ =>
  }

  // ---- the other parts ----

  lemma NotedKeepsHealthy(h: Health, o: Outcome)
    requires Healthy(h)
    ensures Healthy(Noted(h, o))
  {
    assert (h.verdicts + [o])[..|h.verdicts|] == h.verdicts;
  }

  // Failures, warnings and the last error follow the history of outcomes.
  lemma StepKeepsHealthy(c: Config, s: State, e: Event)
    requires Inv(c, s) && Enabled(s, e)
    ensures Healthy(Step(c, s, e).health)
  {
    hide LaneOk, Total, Advance, Ledger, Submitted, Healthy, Noted;
    match e
    case Acquire(t) => var _ := AdvanceShape(s.(waiting := s.waiting - {t}, holder := Some(t)), 0);
    case Resolve(o) =>
      NotedKeepsHealthy(s.health, o);
      var _ := AdvanceShape(Settled(s, o), Index(s.flight.value.kind) + 1);
    case Submit(k, rs) => assert Submitted(c, s, k, rs).health == s.health by { SubmitFrame(c, s, k, rs); }
    case _ =>
  }

  lemma SubmitFrame(c: Config, s: State, k: Kind, rs: seq<Record>)
    ensures var t := Submitted(c, s, k, rs);
      t == s.(lanes := t.lanes, submitted := t.submitted, dropped := t.dropped, wake := t.wake)
  {
    hide PutAll, Evictions;
  }

  lemma AcquireKeepsRoles(c: Config, s: State, t: Task)
    requires Inv(c, s) && Enabled(s, Acquire(t))
    ensures Roles(Step(c, s, Acquire(t)))
  {
    hide LaneOk, Total, Advance, Ledger, PutAll, Evictions, Healthy, Noted;
    var _ := AdvanceShape(s.(waiting := s.waiting - {t}, holder := Some(t)), 0);
  }

  lemma ResolveKeepsRoles(c: Config, s: State, o: Outcome)
    requires Inv(c, s) && Enabled(s, Resolve(o))
    ensures Roles(Step(c, s, Resolve(o)))
  {
    hide LaneOk, Total, Advance, Ledger, PutAll, Evictions, Healthy, Noted;
    var _ := AdvanceShape(Settled(s, o), Index(s.flight.value.kind) + 1);
  }

  lemma SubmitKeepsRoles(c: Config, s: State, k: Kind, rs: seq<Record>)
    requires Roles(s)
    ensures Roles(Submitted(c, s, k, rs))
  {
    hide PutAll, Evictions;
  }

  lemma CancelKeepsRoles(s: State, t: Task)
    requires Roles(s) && Cancellable(s, t)
    ensures Roles(CancelledTask(s, t))
  {
    hide Settle;
  }

  // The actors stay where their states say.
  lemma StepKeepsRoles(c: Config, s: State, e: Event)
    requires Inv(c, s) && Enabled(s, e)
    ensures Roles(Step(c, s, e))
  {
    hide Ledger, Healthy, Shutdown, Submitted, Acquired, Resolved, CancelledTask;
    match e
    case Submit(k, rs) => SubmitKeepsRoles(c, s, k, rs);
    case Acquire(t) => AcquireKeepsRoles(c, s, t);
    case Resolve(o) => ResolveKeepsRoles(c, s, o);
    case Cancel(t) => CancelKeepsRoles(s, t);
    case _ =>
  }

  lemma AcquireKeepsWakeups(c: Config, s: State, t: Task)
    requires Inv(c, s) && Enabled(s, Acquire(t)) && Wakeups(c, s) && c.maxBatch >= 1
    ensures Wakeups(c, Step(c, s, Acquire(t)))
  {
    hide LaneOk, Total, Advance, Ledger, PutAll, Evictions, Healthy, Noted;
    var _ := AdvanceShape(s.(waiting := s.waiting - {t}, holder := Some(t)), 0);
  }

  lemma ResolveKeepsWakeups(c: Config, s: State, o: Outcome)
    requires Inv(c, s) && Enabled(s, Resolve(o)) && Wakeups(c, s) && c.maxBatch >= 1
    ensures Wakeups(c, Step(c, s, Resolve(o)))
  {
    hide LaneOk, Total, Advance, Ledger, PutAll, Evictions, Healthy, Noted;
    var _ := AdvanceShape(Settled(s, o), Index(s.flight.value.kind) + 1);
  }

  // No wake-up is lost.
  lemma StepKeepsWakeups(c: Config, s: State, e: Event)
    requires Inv(c, s) && Enabled(s, e) && Wakeups(c, s) && c.maxBatch >= 1
    ensures Wakeups(c, Step(c, s, e))
  {
    hide LaneOk, Total, Advance, Ledger, PutAll, Evictions, Healthy, Noted;
    match e
    case Acquire(t) => AcquireKeepsWakeups(c, s, t);
    case Resolve(o) => ResolveKeepsWakeups(c, s, o);
    case Submit(k, rs) =>
    case Cancel(t) =>
    case _ =>
  }

  lemma AcquireKeepsShutdown(c: Config, s: State, t: Task)
    requires Inv(c, s) && Enabled(s, Acquire(t))
    ensures Shutdown(Step(c, s, Acquire(t)))
  {
    hide LaneOk, Total, Advance, Ledger, PutAll, Evictions, Healthy, Noted;
    var _ := AdvanceShape(s.(waiting := s.waiting - {t}, holder := Some(t)), 0);
  }

  lemma ResolveKeepsShutdown(c: Config, s: State, o: Outcome)
    requires Inv(c, s) && Enabled(s, Resolve(o))
    ensures Shutdown(Step(c, s, Resolve(o)))
  {
    hide LaneOk, Total, Advance, Ledger, PutAll, Evictions, Healthy, Noted;
    var _ := AdvanceShape(Settled(s, o), Index(s.flight.value.kind) + 1);
  }

  // What the final flush emptied stays empty.
  lemma StepKeepsShutdown(c: Config, s: State, e: Event)
    requires Inv(c, s) && Enabled(s, e)
    ensures Shutdown(Step(c, s, e))
  {
    hide LaneOk, Total, Advance, Ledger, PutAll, Evictions, Healthy, Noted;
    match e
    case Acquire(t) => AcquireKeepsShutdown(c, s, t);
    case Resolve(o) => ResolveKeepsShutdown(c, s, o);
    case Submit(k, rs) =>
    case Cancel(t) =>
    case _ =>
  }

  lemma InitialInv(c: Config)
    ensures Inv(c, INITIAL)
    ensures Wakeups(c, INITIAL) <==> c.maxBatch >= 1
  {
    assert |INITIAL.At(Metrics).queue| == 0;
  }

  lemma StepKeepsInv(c: Config, s: State, e: Event)
    requires Inv(c, s) && Enabled(s, e)
    ensures Inv(c, Step(c, s, e))
  {
    hide Inv, Ledger, Roles, Healthy, Shutdown, Step;
    StepKeepsLedger(c, s, e);
    StepKeepsRoles(c, s, e);
    StepKeepsHealthy(c, s, e);
    StepKeepsShutdown(c, s, e);
    Gathered(c, Step(c, s, e));
  }

  lemma Gathered(c: Config, s: State)
    requires Ledger(c, s) && Roles(s) && Healthy(s.health) && Shutdown(s)
    ensures Inv(c, s)
  {
  }

  // The invariant holds in every reachable state, and so does the wake-up
  // property for a batch size of at least one.
  lemma {:induction false} RunKeepsInv(c: Config, s: State, events: seq<Event>)
    requires Inv(c, s)
    ensures Inv(c, Run(c, s, events))
    ensures c.maxBatch >= 1 && Wakeups(c, s) ==> Wakeups(c, Run(c, s, events))
    decreases |events|
  {
    if events != [] {
      var e := events[0];
      if Enabled(s, e) {
        StepKeepsInv(c, s, e);
        if c.maxBatch >= 1 && Wakeups(c, s) { StepKeepsWakeups(c, s, e); }
      }
      RunKeepsInv(c, Next(c, s, e), events[1..]);
    }
  }
}
