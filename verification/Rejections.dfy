// The collector's rejection count is clamped on one side only, so a negative
// one makes a batch count as more exported records than it has. When that
// cannot happen, and what follows then.
module Rejections {
  import opened Wrappers
  import opened Lane
  import opened Processor
  import opened ProcessorInvariant
  import opened ProcessorTheorems

  // ---- the log of removals and the history of outcomes ----

  predicate FairFate(f: Fate) {
    f.Delivered? ==> f.rejected >= 0
  }

  predicate FairLog(log: seq<Removal>) {
    forall r :: r in log ==> FairFate(r.fate)
  }

  predicate Fair(s: State) {
    FairLog(s.lanes.metrics.log) && FairLog(s.lanes.logs.log) && FairLog(s.lanes.traces.log)
  }

  // No collector has reported a negative count.
  predicate NoNegative(verdicts: seq<Outcome>) {
    forall v :: v in verdicts && v.Partial? ==> v.rejected >= 0
  }

  lemma {:induction false} PutAllFair(maxQueue: nat, l: Lane, rs: seq<Record>)
    ensures FairLog(PutAll(maxQueue, l, rs).log) <==> FairLog(l.log)
    decreases |rs|
  {
    if rs != [] {
      PutAllFair(maxQueue, Put(maxQueue, l, rs[0]), rs[1..]);
    }
  }

  lemma SettleFair(l: Lane, i: nat, fate: Fate)
    requires i < |l.log| && l.log[i].fate.InFlight?
    ensures FairLog(Settle(l, i, fate).log) <==> FairLog(l.log) && FairFate(fate)
  {
    var log := Settle(l, i, fate).log;
    assert log[i] in log && log[i].fate == fate;
    if FairLog(log) {
      forall r | r in l.log ensures FairFate(r.fate) {
        var j :| 0 <= j < |l.log| && l.log[j] == r;
        assert log[j] in log;
      }
    }
  }

  lemma NotedNoNegative(h: Health, o: Outcome)
    ensures NoNegative(Noted(h, o).verdicts) <==> NoNegative(h.verdicts) && FairFate(FateOf(o))
  {
    var vs := Noted(h, o).verdicts;
    assert vs == h.verdicts + [o];
    assert o in vs;
    assert forall v :: v in h.verdicts ==> v in vs;
  }

  lemma AdvanceFair(s: State, i: nat)
    requires s.holder.Some?
    ensures Fair(Advance(s, i)) <==> Fair(s)
    ensures Advance(s, i).health == s.health
  {
    hide Advance;
    var _ := AdvanceShape(s, i);
  }

  // A negative count in the log and a negative count in the history come together.
  lemma StepFair(c: Config, s: State, e: Event)
    requires Inv(c, s) && Enabled(s, e) && (Fair(s) <==> NoNegative(s.health.verdicts))
    ensures Fair(Step(c, s, e)) <==> NoNegative(Step(c, s, e).health.verdicts)
  {
    hide Advance, Fair, FairLog, NoNegative, PutAll, Evictions, LaneOk, Total, Noted, Settle;
    match e
    case Submit(k, rs) => SubmitFair(c, s, k, rs);
    case Acquire(t) =>
      var held := s.(waiting := s.waiting - {t}, holder := Some(t));
      SameLanes(s, held);
      AdvanceFair(held, 0);
    case Resolve(o) =>
      SettledFair(c, s, o);
      AdvanceFair(Settled(s, o), Index(s.flight.value.kind) + 1);
    case Cancel(t) =>
      if t !in s.waiting && s.holder == Some(t) && Exporting(s) { CancelFair(c, s); }
      else { SameLanes(s, CancelledTask(s, t)); }
    case _ => SameLanes(s, Step(c, s, e));
  }

  lemma SameLanes(s: State, t: State)
    requires s.lanes == t.lanes
    ensures Fair(s) <==> Fair(t)
  {
  }

  lemma SubmitFair(c: Config, s: State, k: Kind, rs: seq<Record>)
    ensures Fair(Submitted(c, s, k, rs)) <==> Fair(s)
  {
    hide PutAll, Evictions, FairLog;
    PutAllFair(c.maxQueue, s.At(k), rs);
  }

  lemma SettledFair(c: Config, s: State, o: Outcome)
    requires Ledger(c, s) && Exporting(s)
    ensures Fair(Settled(s, o)) <==> Fair(s) && FairFate(FateOf(o))
    ensures NoNegative(Settled(s, o).health.verdicts) <==> NoNegative(s.health.verdicts) && FairFate(FateOf(o))
  {
    hide FairLog, Settle, Total, Noted, FairFate, NoNegative, FateOf;
    var f := s.flight.value;
    assert LaneOk(c.maxQueue, s.At(f.kind), s.Pending(f.kind));
    SettleFair(s.At(f.kind), f.entry, FateOf(o));
    NotedNoNegative(s.health, o);
  }

  lemma CancelFair(c: Config, s: State)
    requires Ledger(c, s) && Exporting(s)
    ensures Fair(CancelExport(s)) <==> Fair(s)
    ensures CancelExport(s).health == s.health
  {
    hide FairLog, Settle, Total;
    var f := s.flight.value;
    assert LaneOk(c.maxQueue, s.At(f.kind), s.Pending(f.kind));
    SettleFair(s.At(f.kind), f.entry, Cancelled);
  }

  lemma {:induction false} RunFair(c: Config, s: State, events: seq<Event>)
    requires Inv(c, s) && (Fair(s) <==> NoNegative(s.health.verdicts))
    ensures Fair(Run(c, s, events)) <==> NoNegative(Run(c, s, events).health.verdicts)
    decreases |events|
  {
    hide Step, Inv, Fair, NoNegative;
    if events != [] {
      var e := events[0];
      if Enabled(s, e) {
        StepFair(c, s, e);
        StepKeepsInv(c, s, e);
      }
      RunFair(c, Next(c, s, e), events[1..]);
    }
  }

  // ---- what follows ----

  lemma {:induction false} FairTotals(maxQueue: nat, log: seq<Removal>, end: int)
    requires Tiles(maxQueue, log, end) && FairLog(log)
    ensures Total(log, RejectedOf) >= 0
  {
    if log != [] {
      var before := log[..|log| - 1];
      assert forall r :: r in before ==> r in log;
      assert log[|log| - 1] in log;
      FairTotals(maxQueue, before, log[|log| - 1].from);
    }
  }

  // A removal counts as no more exported records than it has, unless the
  // collector's count for it was negative.
  predicate CountedOnce(l: Lane) {
    forall r :: r in l.log ==> ExportedOf(r) <= Len(r)
  }

  lemma FairIsCountedOnce(maxQueue: nat, l: Lane, pending: int)
    requires LaneOk(maxQueue, l, pending)
    ensures CountedOnce(l) <==> FairLog(l.log)
  {
    forall r | r in l.log ensures ExportedOf(r) <= Len(r) <==> FairFate(r.fate) {
      var i :| 0 <= i < |l.log| && l.log[i] == r;
      TilesEntry(maxQueue, l.log, l.Head(), i);
    }
  }

  lemma RejectedIsNotNegative(c: Config, s: State)
    requires Ledger(c, s) && Fair(s)
    ensures Rejected(s) >= 0
  {
    hide Total, FairLog;
    FairTotals(c.maxQueue, s.lanes.metrics.log, s.lanes.metrics.Head());
    FairTotals(c.maxQueue, s.lanes.logs.log, s.lanes.logs.Head());
    FairTotals(c.maxQueue, s.lanes.traces.log, s.lanes.traces.Head());
  }

  lemma FairIsCountedOnceEverywhere(c: Config, s: State)
    requires Ledger(c, s)
    ensures (forall k: Kind :: CountedOnce(s.At(k))) <==> Fair(s)
  {
    hide LaneOk, Total, FairLog, CountedOnce;
    FairIsCountedOnce(c.maxQueue, s.lanes.metrics, s.Pending(Metrics));
    FairIsCountedOnce(c.maxQueue, s.lanes.logs, s.Pending(Logs));
    FairIsCountedOnce(c.maxQueue, s.lanes.traces, s.Pending(Traces));
    assert (forall k: Kind :: CountedOnce(s.At(k))) <==>
      CountedOnce(s.At(Metrics)) && CountedOnce(s.At(Logs)) && CountedOnce(s.At(Traces));
  }

  // No batch counts as more exported records than it has exactly when no
  // collector has reported a negative count; and then the rejected records are
  // a number of records, so nothing is counted twice.
  lemma RecordsAreCountedOnce(c: Config, events: seq<Event>)
    ensures var s := Reach(c, events);
      && ((forall k: Kind :: CountedOnce(s.At(k))) <==> NoNegative(Outcomes(c, INITIAL, events)))
      && (NoNegative(Outcomes(c, INITIAL, events)) ==>
            0 <= Rejected(s) && s.exported + s.dropped + Queued(s) + InFlightCount(s) <= s.submitted)
  {
    hide Run, Ledger, Fair, NoNegative, CountedOnce, Total, Outcomes, Rejected;
    var s := Reach(c, events);
    ReachInv(c, events);
    InitialInv(c);
    StartsFair();
    RunFair(c, INITIAL, events);
    VerdictsAreOutcomes(c, INITIAL, events);
    assert s.health.verdicts == Outcomes(c, INITIAL, events);
    FairIsCountedOnceEverywhere(c, s);
    if Fair(s) { RejectedIsNotNegative(c, s); }
    Conservation(c, events);
  }

  lemma StartsFair()
    ensures Fair(INITIAL) && NoNegative(INITIAL.health.verdicts)
  {
  }

  // The history of outcomes holds nothing that was not reported.
  lemma {:induction false} OutcomesWereReported(c: Config, s: State, events: seq<Event>)
    requires forall e :: e in events && e.Resolve? && e.outcome.Partial? ==> e.outcome.rejected >= 0
    requires NoNegative(s.health.verdicts)
    ensures NoNegative(Run(c, s, events).health.verdicts)
    decreases |events|
  {
    hide NoNegative, Advance, Settle, PutAll, Evictions;
    if events != [] {
      var e := events[0];
      if Enabled(s, e) {
        match e
        case Acquire(t) => AdvanceFair(s.(waiting := s.waiting - {t}, holder := Some(t)), 0);
        case Resolve(o) =>
          NotedNoNegative(s.health, o);
          AdvanceFair(Settled(s, o), Index(s.flight.value.kind) + 1);
        case _ =>
      }
      assert forall e :: e in events[1..] ==> e in events;
      OutcomesWereReported(c, Next(c, s, e), events[1..]);
    }
  }

  // So in a run in which every reported count is at least zero, no record is
  // lost or counted twice.
  lemma NothingIsCountedTwice(c: Config, events: seq<Event>)
    requires forall e :: e in events && e.Resolve? && e.outcome.Partial? ==> e.outcome.rejected >= 0
    ensures var s := Reach(c, events);
      0 <= Rejected(s) && s.exported + s.dropped + Queued(s) + InFlightCount(s) <= s.submitted
  {
    OutcomesWereReported(c, INITIAL, events);
    VerdictsAreOutcomes(c, INITIAL, events);
    assert Reach(c, events).health.verdicts == Outcomes(c, INITIAL, events);
    RecordsAreCountedOnce(c, events);
  }

  // One record, exported with a negative count.
  function Overcounting(record: Record, rejected: int): seq<Event> {
    [Submit(Metrics, [record]), Call(0), Acquire(Caller(0)), Resolve(Partial(rejected, ""))]
  }

  // A negative count breaks it: more records exported than were ever submitted.
  lemma NegativeRejectionOvercounts(c: Config, record: Record, rejected: int)
    requires c.maxQueue > 0 && rejected < 0
    ensures var s := Reach(c, Overcounting(record, rejected));
      s.submitted == 1 && s.exported == 1 - rejected && s.exported > s.submitted
  {
    hide Run;
    var e := Overcounting(record, rejected);
    var s1 := Next(c, INITIAL, e[0]);
    assert [record][1..] == [];
    var lane := Put(c.maxQueue, EMPTY, record);
    assert PutAll(c.maxQueue, EMPTY, [record]) == PutAll(c.maxQueue, lane, []) == lane;
    assert Evictions(c.maxQueue, EMPTY, [record]) == 0 + Evictions(c.maxQueue, lane, []);
    assert s1.lanes.metrics.queue == [record] && s1.submitted == 1;
    var s2 := Next(c, s1, e[1]);
    var s3 := Next(c, s2, e[2]);
    assert s3.flight == Some(Flight(Metrics, 0, [record])) && Exporting(s3);
    var s4 := Next(c, s3, e[3]);
    assert s4.exported == Settled(s3, e[3].outcome).exported by {
      var _ := AdvanceShape(Settled(s3, e[3].outcome), 1);
    }
    RunOfFour(c, INITIAL, e);
  }

  lemma RunOfFour(c: Config, s: State, e: seq<Event>)
    requires |e| == 4
    ensures Run(c, s, e) == Next(c, Next(c, Next(c, Next(c, s, e[0]), e[1]), e[2]), e[3])
  {
    hide Next;
    var e1, e2, e3 := e[1..], e[2..], e[3..];
    assert e1[1..] == e2 && e2[1..] == e3 && e3[1..] == [];
    var s1 := Next(c, s, e[0]);
    var s2 := Next(c, s1, e[1]);
    var s3 := Next(c, s2, e[2]);
    assert Run(c, s, e) == Run(c, s1, e1);
    assert Run(c, s1, e1) == Run(c, s2, e2);
    assert Run(c, s2, e2) == Run(c, s3, e3);
    assert Run(c, s3, e3) == Run(c, Next(c, s3, e[3]), []);
  }
}
