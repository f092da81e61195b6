// What __aexit__ does for the records that are queued when it is called.
module Closing {
  import opened Wrappers
  import opened Lane
  import opened Processor
  import opened ProcessorInvariant
  import opened ProcessorTheorems

  // Since `l`: nothing submitted, and nothing evicted.
  predicate OnlyBatches(l: Lane, m: Lane) {
    && m.history == l.history
    && forall r :: r in m.log && r.fate.Evicted? ==> r in l.log
  }

  predicate SinceClosing(s: State, t: State) {
    && t.closed
    && OnlyBatches(s.lanes.metrics, t.lanes.metrics)
    && OnlyBatches(s.lanes.logs, t.lanes.logs)
    && OnlyBatches(s.lanes.traces, t.lanes.traces)
  }

  lemma DrainOnly(l: Lane, m: Lane)
    requires OnlyBatches(l, m)
    ensures OnlyBatches(l, Drain(m))
  {
  }

  lemma SettleOnly(l: Lane, m: Lane, i: nat, fate: Fate)
    requires OnlyBatches(l, m) && i < |m.log| && !fate.Evicted?
    ensures OnlyBatches(l, Settle(m, i, fate))
  {
    var log := Settle(m, i, fate).log;
    forall r | r in log && r.fate.Evicted? ensures r in l.log {
      var j :| 0 <= j < |log| && log[j] == r;
      assert r == m.log[j];
    }
  }

  lemma AdvanceOnly(s: State, t: State, i: nat)
    requires SinceClosing(s, t) && t.holder.Some?
    ensures SinceClosing(s, Advance(t, i))
  {
    hide OnlyBatches, Advance, Drain;
    var j := AdvanceShape(t, i);
    if j < 3 { DrainOnly(s.At(KINDS[j]), t.At(KINDS[j])); }
  }

  lemma StepOnly(c: Config, s: State, t: State, e: Event)
    requires SinceClosing(s, t) && Enabled(t, e)
    ensures SinceClosing(s, Step(c, t, e))
  {
    hide OnlyBatches, Advance, Settle, Noted;
    match e
    case Acquire(task) => AdvanceOnly(s, t.(waiting := t.waiting - {task}, holder := Some(task)), 0);
    case Resolve(o) =>
      var f := t.flight.value;
      SettleOnly(s.At(f.kind), t.At(f.kind), f.entry, FateOf(o));
      AdvanceOnly(s, Settled(t, o), Index(f.kind) + 1);
    case Cancel(task) =>
      if Exporting(t) {
        SettleOnly(s.At(t.flight.value.kind), t.At(t.flight.value.kind), t.flight.value.entry, Cancelled);
      }
    case _ =>
  }

  lemma {:induction false} RunOnly(c: Config, s: State, t: State, events: seq<Event>)
    requires SinceClosing(s, t)
    ensures SinceClosing(s, Run(c, t, events))
    decreases |events|
  {
    hide SinceClosing, Step;
    if events != [] {
      if Enabled(t, events[0]) { StepOnly(c, s, t, events[0]); }
      RunOnly(c, s, Next(c, t, events[0]), events[1..]);
    }
  }

  // When nothing is in flight, no entry says so.
  lemma {:induction false} NothingPending(maxQueue: nat, log: seq<Removal>, end: int, i: nat)
    requires Tiles(maxQueue, log, end) && i < |log|
    ensures Total(log, PendingOf) >= PendingOf(log[i])
    ensures log[i].fate.InFlight? ==> PendingOf(log[i]) > 0
  {
    var before, last := log[..|log| - 1], log[|log| - 1];
    PendingIsNotNegative(maxQueue, before, last.from);
    if i < |before| { NothingPending(maxQueue, before, last.from, i); }
  }

  lemma {:induction false} PendingIsNotNegative(maxQueue: nat, log: seq<Removal>, end: int)
    requires Tiles(maxQueue, log, end)
    ensures Total(log, PendingOf) >= 0
  {
    if log != [] { PendingIsNotNegative(maxQueue, log[..|log| - 1], log[|log| - 1].from); }
  }

  // The export of a batch has ended in one way or another.
  predicate IsOver(f: Fate) {
    f.Delivered? || f.Failed? || f.Cancelled?
  }

  // The removal that took record n, which was queued at l, is of a batch.
  lemma TakenInABatch(maxQueue: nat, l: Lane, pending: int, m: Lane, i: nat, n: nat)
    requires LaneOk(maxQueue, l, pending) && LaneOk(maxQueue, m, -1) && OnlyBatches(l, m)
    requires l.Head() <= n && i < |m.log| && n < m.log[i].to
    ensures IsOver(m.log[i].fate)
  {
    NothingPending(maxQueue, m.log, m.Head(), i);
    assert m.log[i] in m.log;
    if m.log[i].fate.Evicted? {
      var j :| 0 <= j < |l.log| && l.log[j] == m.log[i];
      TilesEntry(maxQueue, l.log, l.Head(), j);
    }
  }

  // Every record that is still queued when the processor is closed has left in
  // a batch whose export is over when __aexit__ has returned: none is pushed
  // out by a newer one, and none stays behind.
  lemma QueuedRecordsLeaveInBatches(c: Config, events: seq<Event>, more: seq<Event>, k: Kind, n: nat)
    requires Reach(c, events).closed && Reach(c, events + more).exit.Returned?
    requires Reach(c, events).At(k).Head() <= n < |Reach(c, events).At(k).history|
    ensures var l := Reach(c, events + more).At(k);
      && l.history == Reach(c, events).At(k).history
      && exists i :: 0 <= i < |l.log| && l.log[i].from <= n < l.log[i].to && IsOver(l.log[i].fate)
  {
    hide Run, Healthy, LaneOk, OnlyBatches, Total, IsOver;
    var s, t := Reach(c, events), Reach(c, events + more);
    var l, m := s.At(k), t.At(k);
    ReachInv(c, events);
    ReachInv(c, events + more);
    RunAppend(c, INITIAL, events, more);
    assert SinceClosing(s, s) by { FromTheStart(s); }
    RunOnly(c, s, s, more);
    SameHistory(l, m);
    EveryRecordHasOneFate(c, events + more, k, n);
    var i :| 0 <= i < |m.log| && m.log[i].from <= n < m.log[i].to;
    TakenInABatch(c.maxQueue, l, s.Pending(k), m, i, n);
  }

  lemma FromTheStart(s: State)
    requires s.closed
    ensures SinceClosing(s, s)
  {
  }

  lemma SameHistory(l: Lane, m: Lane)
    requires OnlyBatches(l, m)
    ensures m.history == l.history
  {
  }

  // ---- shutdown gets there ----

  // In every reachable state an export that runs can be resolved, whatever it
  // brings, and a free lock can be taken by each task that waits for it.
  lemma NothingIsStuck(c: Config, events: seq<Event>)
    ensures var s := Reach(c, events);
      && (s.holder.Some? ==> forall o :: Enabled(s, Resolve(o)))
      && (s.holder.None? ==> forall t :: t in s.waiting ==> Enabled(s, Acquire(t)))
  {
    ReachInv(c, events);
  }

  // The exports of one flush, with these outcomes. Those that the flush does
  // not come to do not happen.
  function Resolves(os: seq<Outcome>): (r: seq<Event>)
    ensures |r| == |os|
  {
    if os == [] then [] else [Resolve(os[0])] + Resolves(os[1..])
  }

  // How many queues a flush has still before it, its own included.
  function Ahead(s: State): nat {
    if s.flight.None? then 0 else 3 - Index(s.flight.value.kind)
  }

  // A resolved export brings the flush on, or to its end.
  lemma ResolveAdvances(c: Config, s: State, o: Outcome)
    requires Inv(c, s) && s.holder.Some?
    ensures var t := Next(c, s, Resolve(o));
      && Inv(c, t) && Enabled(s, Resolve(o)) && t.waiting == s.waiting
      && (if t.holder.Some? then t.holder == s.holder && Ahead(t) < Ahead(s) && t.exit == s.exit
          else t.exit == if s.holder == Some(Exiter) then Returned else s.exit)
  {
    hide Ledger, Healthy, Shutdown, Advance, Settle, Noted, LaneOk, Total;
    HeldMeansExporting(c, s);
    StepKeepsInv(c, s, Resolve(o));
    var _ := AdvanceShape(Settled(s, o), Index(s.flight.value.kind) + 1);
  }

  // After as many outcomes as it has queues ahead, a flush is over.
  lemma {:induction false} FlushEnds(c: Config, s: State, os: seq<Outcome>)
    requires Inv(c, s) && Ahead(s) <= |os|
    ensures var t := Run(c, s, Resolves(os));
      && Inv(c, t) && t.holder.None? && t.waiting == s.waiting
      && t.exit == if s.holder == Some(Exiter) then Returned else s.exit
    decreases |os|
  {
    hide Ledger, Healthy, Shutdown, Step;
    if s.holder.None? {
      NothingToResolve(c, s, os);
    } else {
      assert s.flight.Some? && os != [];
      var t := Next(c, s, Resolve(os[0]));
      ResolveAdvances(c, s, os[0]);
      FlushEnds(c, t, os[1..]);
      assert Resolves(os)[1..] == Resolves(os[1..]);
    }
  }

  lemma {:induction false} NothingToResolve(c: Config, s: State, os: seq<Outcome>)
    requires s.holder.None?
    ensures Run(c, s, Resolves(os)) == s
    decreases |os|
  {
    if os != [] {
      assert Resolves(os)[1..] == Resolves(os[1..]);
      NothingToResolve(c, s, os[1..]);
    }
  }

  // What is left of a shutdown: the loop's cancellation arrives and is awaited,
  // a flush that is running ends, and the final flush takes the lock and ends.
  function RestOfShutdown(first: seq<Outcome>, last: seq<Outcome>): seq<Event> {
    [Cancel(Background), Joined] + Resolves(first) + [Acquire(Exiter)] + Resolves(last)
  }

  // From every reachable state in which shutdown has begun and was not
  // cancelled, it returns after at most three resolved exports of the flush
  // that holds the lock and three of its own, whatever their outcomes.
  lemma ShutdownReturns(c: Config, events: seq<Event>, first: seq<Outcome>, last: seq<Outcome>)
    requires |first| == |last| == 3
    requires Reach(c, events).exit.Joining? || Reach(c, events).exit.FinalFlush?
    ensures Reach(c, events + RestOfShutdown(first, last)).exit.Returned?
  {
    hide Run, Inv, Step, Resolves;
    var s := Reach(c, events);
    ReachInv(c, events);
    LoopIsJoined(c, s);
    var s2 := Next(c, Next(c, s, Cancel(Background)), Joined);
    FlushEnds(c, s2, first);
    var s3 := Run(c, s2, Resolves(first));
    LastFlushStarts(c, s3);
    var s4 := Next(c, s3, Acquire(Exiter));
    FlushEnds(c, s4, last);
    InOrder(c, events, s, Resolves(first), Resolves(last));
  }

  lemma LoopIsJoined(c: Config, s: State)
    requires Inv(c, s) && (s.exit.Joining? || s.exit.FinalFlush?)
    ensures var t := Next(c, Next(c, s, Cancel(Background)), Joined);
      Inv(c, t) && t.exit.FinalFlush? && Ahead(t) <= 3
  {
    hide Ledger, Healthy, Shutdown, Settle;
    HeldMeansExporting(c, s);
    var s1 := Next(c, s, Cancel(Background));
    if Enabled(s, Cancel(Background)) { StepKeepsInv(c, s, Cancel(Background)); }
    if Enabled(s1, Joined) { StepKeepsInv(c, s1, Joined); }
  }

  lemma LastFlushStarts(c: Config, s: State)
    requires Inv(c, s) && s.holder.None? && (s.exit.FinalFlush? || s.exit.Returned?)
    ensures var t := Next(c, s, Acquire(Exiter));
      && Inv(c, t) && Ahead(t) <= 3
      && (if t.holder.None? then t.exit.Returned? else t.exit.FinalFlush? && t.holder == Some(Exiter))
  {
    hide Ledger, Healthy, Shutdown, Advance;
    if Enabled(s, Acquire(Exiter)) {
      StepKeepsInv(c, s, Acquire(Exiter));
      var _ := AdvanceShape(s.(waiting := s.waiting - {Exiter}, holder := Some(Exiter)), 0);
    }
  }

  // The stages of RestOfShutdown one after the other.
  lemma InOrder(c: Config, events: seq<Event>, s: State, first: seq<Event>, last: seq<Event>)
    requires s == Reach(c, events)
    ensures var s2 := Next(c, Next(c, s, Cancel(Background)), Joined);
      Reach(c, events + ([Cancel(Background), Joined] + first + [Acquire(Exiter)] + last))
      == Run(c, Next(c, Run(c, s2, first), Acquire(Exiter)), last)
  {
    hide Next;
    var head: seq<Event> := [Cancel(Background), Joined];
    var s1 := Next(c, s, Cancel(Background));
    var s2 := Next(c, s1, Joined);
    assert head[1..] == [Joined] && [Joined][1..] == [];
    assert Run(c, s, head) == Run(c, s1, [Joined]) == Run(c, s2, []);
    var lock: seq<Event> := [Acquire(Exiter)];
    var s3 := Run(c, s2, first);
    assert lock[1..] == [];
    assert Run(c, s3, lock) == Run(c, Next(c, s3, Acquire(Exiter)), []);
    RunAppend(c, INITIAL, events, head + first + lock + last);
    RunAppend(c, s, head + first + lock, last);
    RunAppend(c, s, head + first, lock);
    RunAppend(c, s, head, first);
  }
}
