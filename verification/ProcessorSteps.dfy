// What a user of the batch processor sees of each step: queues, counters,
// health, events and return values, in terms of what was there before. These
// statements do not mention how the steps are composed.
module ProcessorSteps {
  import opened Wrappers
  import opened Lane
  import opened Processor
  import opened ProcessorInvariant
  import opened ProcessorTheorems

  // The queues other than k are as they were.
  predicate OthersKept(s: State, t: State, k: Kind) {
    forall j: Kind :: j != k ==> t.At(j) == s.At(j)
  }

  // The counters are as they were, but for these additions.
  predicate Counted(s: State, t: State, submitted: int, exported: int, dropped: int) {
    && t.submitted == s.submitted + submitted
    && t.exported == s.exported + exported
    && t.dropped == s.dropped + dropped
  }

  // submit_*: a closed processor changes nothing and returns False. An open one
  // keeps the newest max_queue records of its own signal, counts what it took
  // and what it pushed out, returns True exactly when nothing was pushed out,
  // and wakes the loop when the queue holds a batch.
  lemma SubmitDoes(c: Config, events: seq<Event>, k: Kind, rs: seq<Record>)
    ensures var s := Reach(c, events); var t := Next(c, s, Submit(k, rs)); var all := s.At(k).queue + rs;
      var extra := if |all| > c.maxQueue then |all| - c.maxQueue else 0;
      if s.closed then
        t == s && !Accepted(c, s, k, rs)
      else
        && t.At(k).queue == all[extra..] && OthersKept(s, t, k) && Counted(s, t, |rs|, 0, extra)
        && (Accepted(c, s, k, rs) <==> extra == 0)
        && (t.wake <==> s.wake || |all| - extra >= c.maxBatch)
        && t.health == s.health && t.flight == s.flight && t.holder == s.holder && t.waiting == s.waiting
        && t.flushed == s.flushed && !t.closed && t.loop == s.loop && t.exit == s.exit
  {
    hide PutAll, Evictions, Total, Tiles;
    ReachInv(c, events);
    var s := Reach(c, events);
    assert LaneOk(c.maxQueue, s.At(k), s.Pending(k));
    OverflowKeepsNewest(c.maxQueue, s.At(k), rs);
  }

  // The first signal from `first` on, in the order metrics, logs, traces, whose
  // queue is not empty.
  function FirstFull(s: State, first: nat): Option<Kind> {
    if first == 0 && s.At(Metrics).queue != [] then Some(Metrics)
    else if first <= 1 && s.At(Logs).queue != [] then Some(Logs)
    else if first <= 2 && s.At(Traces).queue != [] then Some(Traces)
    else None
  }

  // A flush goes on from a signal: the first non-empty queue is emptied into
  // the batch in flight; without one the lock is free, the loop sets its event
  // and waits again, and the final flush of shutdown has returned.
  predicate GoesOn(s: State, t: State, task: Task, first: nat) {
    var k := FirstFull(s, first);
    && Counted(s, t, 0, 0, 0)
    && (if k.Some? then
          && t.flight.Some? && t.flight.value.kind == k.value && t.flight.value.batch == s.At(k.value).queue
          && t.At(k.value).queue == [] && t.At(k.value).history == s.At(k.value).history
          && OthersKept(s, t, k.value) && t.holder == Some(task)
          && t.loop == s.loop && t.exit == s.exit && t.flushed == s.flushed
        else
          && t.flight.None? && t.holder.None? && t.lanes == s.lanes
          && t.loop == (if task == Background then Idle else s.loop)
          && t.flushed == (s.flushed || task == Background)
          && t.exit == (if task == Exiter then Returned else s.exit))
    && t.health == s.health && t.closed == s.closed && t.wake == s.wake && t.waiting == s.waiting
  }

  lemma AdvanceGoesOn(s: State, first: nat)
    requires s.holder.Some? && s.flight.None?
    ensures GoesOn(s, Advance(s, first), s.holder.value, first)
  {
    hide Advance;
    var j := AdvanceShape(s, first);
  }

  // flush() has the lock.
  lemma FlushDoes(c: Config, events: seq<Event>, task: Task)
    requires Enabled(Reach(c, events), Acquire(task))
    ensures var s := Reach(c, events);
      GoesOn(s.(waiting := s.waiting - {task}), Next(c, s, Acquire(task)), task, 0)
  {
    hide Advance, Ledger, Healthy, Shutdown, Run;
    ReachInv(c, events);
    var s := Reach(c, events);
    AdvanceGoesOn(s.(waiting := s.waiting - {task}, holder := Some(task)), 0);
  }

  // An export is resolved. A success counts its batch as exported, a partial
  // one all but the rejected records and never less than none, a failure counts
  // it as dropped. A success ends the run of failures and leaves no error, a
  // partial one leaves its message, a failure counts, leaves its message and is
  // warned of when it is the first. Then the flush goes on after this signal.
  lemma ResolveDoes(c: Config, events: seq<Event>, o: Outcome)
    requires Reach(c, events).holder.Some?
    ensures var s := Reach(c, events); var t := Next(c, s, Resolve(o));
      && s.flight.Some?
      && var n, h := |s.flight.value.batch|, s.health;
      && (match o
          case Sent =>
            && Counted(s, t, 0, n, 0)
            && t.health.failures == 0 && t.health.lastError == None && t.health.warnings == h.warnings
          case Partial(rejected, message) =>
            && Counted(s, t, 0, if rejected <= n then n - rejected else 0, 0)
            && t.health.failures == 0 && t.health.lastError == Some("partial success: " + message)
            && t.health.warnings == h.warnings
          case Error(message) =>
            && Counted(s, t, 0, 0, n)
            && t.health.failures == h.failures + 1 && t.health.lastError == Some(message)
            && t.health.warnings == h.warnings + (if h.failures == 0 then 1 else 0))
      && exists between: State ::
           && (forall j: Kind :: between.At(j).queue == s.At(j).queue && between.At(j).history == s.At(j).history)
           && (between.holder, between.waiting, between.closed, between.wake, between.flushed, between.loop,
               between.exit) == (s.holder, s.waiting, s.closed, s.wake, s.flushed, s.loop, s.exit)
           && GoesOn(between, t, s.holder.value, Index(s.flight.value.kind) + 1)
  {
    hide Advance, Ledger, Healthy, Shutdown, Run, GoesOn;
    ReachInv(c, events);
    var s := Reach(c, events);
    assert Exporting(s) by { HeldMeansExporting(c, s); }
    var between := Settled(s, o);
    SettledKeepsQueues(s, o);
    AdvanceGoesOn(between, Index(s.flight.value.kind) + 1);
    assert GoesOn(between, Next(c, s, Resolve(o)), s.holder.value, Index(s.flight.value.kind) + 1);
    GoesOnCounts(between, Next(c, s, Resolve(o)), s.holder.value, Index(s.flight.value.kind) + 1);
  }

  lemma GoesOnCounts(s: State, t: State, task: Task, first: nat)
    requires GoesOn(s, t, task, first)
    ensures Counted(s, t, 0, 0, 0) && t.health == s.health
  {
  }

  lemma SettledKeepsQueues(s: State, o: Outcome)
    requires Exporting(s)
    ensures var t := Settled(s, o);
      && (forall j: Kind :: t.At(j).queue == s.At(j).queue && t.At(j).history == s.At(j).history)
      && (t.holder, t.waiting, t.closed, t.wake, t.flushed, t.loop, t.exit)
         == (s.holder, s.waiting, s.closed, s.wake, s.flushed, s.loop, s.exit)
  {
  }

  // A cancelled task is gone. When it was exporting, its batch is dropped and
  // the lock is free; the queues stay as they are.
  lemma CancelDoes(c: Config, events: seq<Event>, task: Task)
    requires Enabled(Reach(c, events), Cancel(task))
    ensures var s := Reach(c, events); var t := Next(c, s, Cancel(task));
      && (forall k: Kind :: t.At(k).queue == s.At(k).queue && t.At(k).history == s.At(k).history)
      && t.waiting == s.waiting - {task} && t.holder != Some(task)
      && (if s.holder == Some(task) then
            s.flight.Some? && Counted(s, t, 0, 0, |s.flight.value.batch|) && t.flight.None? && t.holder.None?
          else
            Counted(s, t, 0, 0, 0) && t.flight == s.flight && t.holder == s.holder)
      && t.loop == (if task == Background then Dead else s.loop)
      && t.exit == (if task == Exiter then Aborted else s.exit)
      && t.health == s.health && t.closed == s.closed && t.wake == s.wake && t.flushed == s.flushed
  {
    hide Ledger, Healthy, Shutdown, Run;
    ReachInv(c, events);
    HeldMeansExporting(c, Reach(c, events));
  }

  // The remaining steps touch no queue and no counter: a turn of the loop
  // clears both events and asks for the lock, shutdown closes the processor
  // first and flushes when the loop is no longer alive.
  lemma OtherStepsDo(c: Config, events: seq<Event>, id: nat)
    ensures var s := Reach(c, events);
      && Next(c, s, Turn)
         == (if s.loop.Idle? then
               s.(wake := false, flushed := false, loop := Flushing, waiting := s.waiting + {Background})
             else s)
      && Next(c, s, Call(id))
         == (if s.holder == Some(Caller(id)) then s else s.(waiting := s.waiting + {Caller(id)}))
      && Next(c, s, Enter) == (if s.loop.NotStarted? then s.(loop := Idle) else s)
      && Next(c, s, Exit) == (if s.closed then s else s.(closed := true, exit := Joining))
      && Next(c, s, Joined)
         == (if s.exit.Joining? && (s.loop.Dead? || s.loop.NotStarted?) then
               s.(exit := FinalFlush, waiting := s.waiting + {Exiter})
             else s)
  {
    hide Ledger, Healthy, Shutdown, Run;
    ReachInv(c, events);
    var s := Reach(c, events);
    if Caller(id) in s.waiting { assert s.waiting + {Caller(id)} == s.waiting; }
  }

  // A task can be cancelled at each of its awaits: for the lock, for an export,
  // and the loop also while it idles.
  lemma CanBeCancelled(c: Config, events: seq<Event>, task: Task)
    ensures var s := Reach(c, events);
      Enabled(s, Cancel(task)) <==>
        task in s.waiting || s.holder == Some(task) || (task == Background && s.loop == Idle)
  {
    hide Healthy, Shutdown, Run;
    ReachInv(c, events);
    HeldMeansExporting(c, Reach(c, events));
  }

  // The wake event is set by a submit that leaves a full batch in its queue,
  // cleared by the loop's turn, and by nothing else.
  lemma WakeChanges(c: Config, events: seq<Event>, e: Event)
    requires Enabled(Reach(c, events), e)
    ensures var s := Reach(c, events); var t := Next(c, s, e);
      t.wake == if e.Turn? then false
                else s.wake || (e.Submit? && !s.closed && |t.At(e.kind).queue| >= c.maxBatch)
  {
    hide Ledger, Healthy, Shutdown, Run, Advance, PutAll, Evictions, Settle;
    ReachInv(c, events);
    var s := Reach(c, events);
    match e
    case Acquire(t) => var _ := AdvanceShape(s.(waiting := s.waiting - {t}, holder := Some(t)), 0);
    case Resolve(o) => var _ := AdvanceShape(Settled(s, o), Index(s.flight.value.kind) + 1);
    case _ =>
  }
}
