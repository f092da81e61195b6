// What holds of the batch processor over whole runs, under any interleaving
// of submits, flushes, failures and cancellations.
module ProcessorTheorems {
  import opened Wrappers
  import opened Lane
  import opened Processor
  import opened ProcessorInvariant

  // The state after any sequence of events.
  function Reach(c: Config, events: seq<Event>): State {
    Run(c, INITIAL, events)
  }

  lemma ReachInv(c: Config, events: seq<Event>)
    ensures Inv(c, Reach(c, events))
    ensures c.maxBatch >= 1 ==> Wakeups(c, Reach(c, events))
  {
    InitialInv(c);
    RunKeepsInv(c, INITIAL, events);
  }

  // ---- conservation ----

  function Queued(s: State): int {
    |s.lanes.metrics.queue| + |s.lanes.logs.queue| + |s.lanes.traces.queue|
  }

  function InFlightCount(s: State): int {
    if s.flight.Some? then |s.flight.value.batch| else 0
  }

  function Rejected(s: State): int {
    Sum3(s, RejectedOf)
  }

  lemma LaneBalance(maxQueue: nat, l: Lane, pending: int)
    requires LaneOk(maxQueue, l, pending)
    ensures |l.history| == Total(l.log, ExportedOf) + Total(l.log, DroppedOf) + Total(l.log, RejectedOf)
                         + |l.queue| + (if pending < 0 then 0 else Len(l.log[pending]))
  {
    TilesTotal(maxQueue, l.log, l.Head());
    TotalSplits(l.log);
  }

  lemma Balance(c: Config, s: State)
    requires Inv(c, s)
    ensures s.submitted == s.exported + s.dropped + Rejected(s) + Queued(s) + InFlightCount(s)
  {
    hide LaneOk, Total, Shutdown, Healthy;
    LaneBalance(c.maxQueue, s.lanes.metrics, s.Pending(Metrics));
    LaneBalance(c.maxQueue, s.lanes.logs, s.Pending(Logs));
    LaneBalance(c.maxQueue, s.lanes.traces, s.Pending(Traces));
  }

  // Every submitted record is exported, dropped, rejected by the collector,
  // queued, or in the batch in flight. Module Rejections says when none of
  // these numbers can be negative.
  lemma Conservation(c: Config, events: seq<Event>)
    ensures var s := Reach(c, events);
      s.submitted == s.exported + s.dropped + Rejected(s) + Queued(s) + InFlightCount(s)
  {
    ReachInv(c, events);
    Balance(c, Reach(c, events));
  }

  // ---- the fate of each record ----

  // Per signal, the queue is the tail of the submission history, and each
  // record before it left in exactly one removal: in a batch, or alone as the
  // oldest of a full queue. Removals come in order, so batches do not overlap
  // and the gaps between them are exactly the evicted records.
  lemma EveryRecordHasOneFate(c: Config, events: seq<Event>, k: Kind, n: nat)
    requires n < |Reach(c, events).At(k).history|
    ensures var l := Reach(c, events).At(k);
      && 0 <= l.Head() <= |l.history| && l.queue == l.history[l.Head()..]
      && (n >= l.Head() ==> forall i :: 0 <= i < |l.log| ==> l.log[i].to <= n)
      && (n < l.Head() ==> exists i :: 0 <= i < |l.log| && l.log[i].from <= n < l.log[i].to)
      && (forall i, j :: 0 <= i < j < |l.log| ==> l.log[i].to <= l.log[j].from)
      && (forall i :: 0 <= i < |l.log| ==> Explained(c.maxQueue, l.log[i]))
  {
    ReachInv(c, events);
    var s := Reach(c, events);
    var l := s.At(k);
    assert LaneOk(c.maxQueue, l, s.Pending(k));
    forall i | 0 <= i < |l.log|
      ensures Explained(c.maxQueue, l.log[i]) && l.log[i].to <= l.Head()
    {
      TilesEntry(c.maxQueue, l.log, l.Head(), i);
    }
    forall i, j | 0 <= i < j < |l.log|
      ensures l.log[i].to <= l.log[j].from
    {
      TilesOrdered(c.maxQueue, l.log, l.Head(), i, j);
    }
    if n < l.Head() {
      var i := TilesCover(c.maxQueue, l.log, l.Head(), n);
    }
  }

  // A record outside every batch and outside the queue was evicted, just when
  // the record maxQueue places after it was submitted.
  lemma GapsAreEvictions(c: Config, events: seq<Event>, k: Kind, n: nat)
    requires var l := Reach(c, events).At(k);
      n < l.Head() && forall r :: r in l.log && !r.fate.Evicted? ==> !(r.from <= n < r.to)
    ensures Removal(n, n + 1, n + 1 + c.maxQueue, Evicted) in Reach(c, events).At(k).log
  {
    var l := Reach(c, events).At(k);
    EveryRecordHasOneFate(c, events, k, n);
    var i :| 0 <= i < |l.log| && l.log[i].from <= n < l.log[i].to;
    assert l.log[i] in l.log && Explained(c.maxQueue, l.log[i]);
  }

  // The batch being exported is the segment its entry names; it ends where the
  // history ended when it was drained.
  lemma BatchIsSegment(c: Config, events: seq<Event>)
    requires Reach(c, events).flight.Some?
    ensures var s := Reach(c, events); var f := s.flight.value; var l := s.At(f.kind);
      && f.entry < |l.log| && l.log[f.entry].fate.InFlight?
      && 0 <= l.log[f.entry].from < l.log[f.entry].to == l.log[f.entry].seen <= |l.history|
      && f.batch == l.history[l.log[f.entry].from..l.log[f.entry].to]
  {
    ReachInv(c, events);
    var s := Reach(c, events);
    var l := s.At(s.flight.value.kind);
    assert LaneOk(c.maxQueue, l, s.Pending(s.flight.value.kind));
    TilesEntry(c.maxQueue, l.log, l.Head(), s.flight.value.entry);
  }

  // ---- wake-ups ----

  // While the loop waits, a queue with a full batch has set the wake event:
  // also when the records came during a flush, or while another task held the
  // lock. It is so in every reachable state exactly when max_batch is at least 1.
  lemma NoLostWakeup(c: Config)
    ensures (forall events: seq<Event>, k: Kind ::
               var s := Reach(c, events); s.loop.Idle? && Full(c, s, k) ==> s.wake)
        <==> c.maxBatch >= 1
  {
    if c.maxBatch >= 1 {
      forall events: seq<Event>, k: Kind
        ensures var s := Reach(c, events); s.loop.Idle? && Full(c, s, k) ==> s.wake
      {
        ReachInv(c, events);
      }
    } else {
      var s := Reach(c, [Enter]);
      assert Next(c, INITIAL, Enter) == INITIAL.(loop := Idle);
      assert s == Run(c, INITIAL.(loop := Idle), []);
      assert s.loop.Idle? && Full(c, s, Metrics) && !s.wake;
    }
  }

  // ---- shutdown ----

  predicate Quiescent(s: State) {
    s.exit.Returned? && s.closed && s.flight.None? && s.holder.None? && Exiter !in s.waiting
    && Empty(s, Metrics) && Empty(s, Logs) && Empty(s, Traces)
  }

  predicate SameLedger(s: State, t: State) {
    s.lanes == t.lanes && s.submitted == t.submitted && s.exported == t.exported && s.dropped == t.dropped
  }

  lemma QuietStep(c: Config, s: State, e: Event)
    requires Quiescent(s)
    ensures Quiescent(Next(c, s, e)) && SameLedger(s, Next(c, s, e))
  {
    hide Advance;
    if Enabled(s, e) {
      match e
      case Acquire(t) => var _ := AdvanceShape(s.(waiting := s.waiting - {t}, holder := Some(t)), 0);
      case _ =>
    }
  }

  lemma {:induction false} QuietRun(c: Config, s: State, events: seq<Event>)
    requires Quiescent(s)
    ensures Quiescent(Run(c, s, events)) && SameLedger(s, Run(c, s, events))
    decreases |events|
  {
    if events != [] {
      QuietStep(c, s, events[0]);
      QuietRun(c, Next(c, s, events[0]), events[1..]);
    }
  }

  // When __aexit__ has returned, whatever other flushes are waiting and
  // whatever happens next: queues are empty, nothing is in flight, submits are
  // refused, the counters stand still, and they account for every record.
  lemma ShutdownAccountsForEverything(c: Config, events: seq<Event>, more: seq<Event>, k: Kind, rs: seq<Record>)
    requires Reach(c, events).exit.Returned?
    ensures var s := Reach(c, events); var t := Reach(c, events + more);
      && t.At(k).queue == [] && t.flight.None?
      && !Accepted(c, t, k, rs) && Next(c, t, Submit(k, rs)) == t
      && SameLedger(s, t)
      && t.submitted == t.exported + t.dropped + Rejected(t)
  {
    hide Ledger, Healthy;
    ReachInv(c, events);
    var s := Reach(c, events);
    RunAppend(c, INITIAL, events, more);
    QuietRun(c, s, more);
    Conservation(c, events + more);
  }

  // ---- health ----

  // The outcomes of the exports that were resolved in a run.
  function Outcomes(c: Config, s: State, events: seq<Event>): seq<Outcome>
    decreases |events|
  {
    if events == [] then [] else
    (if events[0].Resolve? && Exporting(s) then [events[0].outcome] else [])
    + Outcomes(c, Next(c, s, events[0]), events[1..])
  }

  lemma NothingElseIsNoted(c: Config, s: State, e: Event)
    requires Enabled(s, e)
    ensures Step(c, s, e).health == if e.Resolve? then Noted(s.health, e.outcome) else s.health
  {
    hide Advance, Noted, Settle, PutAll, Evictions;
    match e
    case Acquire(t) => var _ := AdvanceShape(s.(waiting := s.waiting - {t}, holder := Some(t)), 0);
    case Resolve(o) => var _ := AdvanceShape(Settled(s, o), Index(s.flight.value.kind) + 1);
    case _ =>
  }

  // The history of outcomes that the model keeps is the one of the run.
  lemma {:induction false} VerdictsAreOutcomes(c: Config, s: State, events: seq<Event>)
    ensures Run(c, s, events).health.verdicts == s.health.verdicts + Outcomes(c, s, events)
    decreases |events|
  {
    hide Step;
    if events == [] {
      assert s.health.verdicts + [] == s.health.verdicts;
    } else {
      var e, t := events[0], Next(c, s, events[0]);
      if Enabled(s, e) {
        NothingElseIsNoted(c, s, e);
        if e.Resolve? { assert t.health.verdicts == s.health.verdicts + [e.outcome]; }
      }
      VerdictsAreOutcomes(c, t, events[1..]);
      var rest := Outcomes(c, t, events[1..]);
      assert s.health.verdicts + Outcomes(c, s, events) == t.health.verdicts + rest;
    }
  }

  // consecutive_failures counts the failures since the last success, each run
  // of failures is logged once at WARNING, and last_error tells the last outcome:
  // of all exports that were resolved in the run, in their order.
  lemma HealthIsTheHistory(c: Config, events: seq<Event>)
    ensures var h := Reach(c, events).health; var outcomes := Outcomes(c, INITIAL, events);
      && h.failures == Trailing(outcomes)
      && h.warnings == FailureRuns(outcomes)
      && h.lastError == LastError(outcomes)
  {
    ReachInv(c, events);
    VerdictsAreOutcomes(c, INITIAL, events);
    assert Reach(c, events).health.verdicts == Outcomes(c, INITIAL, events);
  }
}
