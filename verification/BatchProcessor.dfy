// BatchProcessor as the object it is. Each method is the code of one step of
// the transition system of module Processor, named in its contract. A flush
// that awaits an export returns the batch it awaits, and the method for the
// outcome takes up the loop where it stopped.
module BatchProcessors {
  import opened Wrappers
  import opened Lane
  import opened Processor

  // What a suspended flush is waiting for.
  datatype Awaited = Awaited(kind: Kind, batch: seq<Record>)

  class BatchProcessor {
    const maxBatch: int
    const maxQueue: nat

    var queues: map<Kind, seq<Record>>
    var submitted: int
    var exported: int
    var dropped: int
    var consecutiveFailures: int
    var lastError: Option<string>
    var closed: bool
    var wake: bool
    var flushed: bool

    // The state of the transition system: the fields above, where each task
    // stands, and the history the code does not keep.
    ghost var model: State

    ghost predicate Valid()
      reads this
    {
      && QueuesMatch()
      && submitted == model.submitted && exported == model.exported && dropped == model.dropped
      && consecutiveFailures == model.health.failures && lastError == model.health.lastError
      && closed == model.closed && wake == model.wake && flushed == model.flushed
    }

    ghost predicate QueuesMatch()
      reads this`queues, this`model
    {
      && queues.Keys == {Metrics, Logs, Traces}
      && queues[Metrics] == model.lanes.metrics.queue
      && queues[Logs] == model.lanes.logs.queue
      && queues[Traces] == model.lanes.traces.queue
    }

    ghost function Setup(): Config {
      Config(maxBatch, maxQueue)
    }

    constructor (maxBatch: int, maxQueue: nat)
      ensures Valid() && model == INITIAL && Setup() == Config(maxBatch, maxQueue)
    {
      this.maxBatch, this.maxQueue := maxBatch, maxQueue;
      queues := map[Metrics := [], Logs := [], Traces := []];
      submitted, exported, dropped := 0, 0, 0;
      consecutiveFailures, lastError := 0, None;
      closed, wake, flushed := false, false, false;
      model := INITIAL;
    }

    // _submit
    method SubmitRecords(kind: Kind, records: seq<Record>) returns (accepted: bool)
      requires Valid()
      modifies this
      ensures Valid() && model == Submitted(Setup(), old(model), kind, records)
      ensures accepted == Accepted(Setup(), old(model), kind, records)
    {
      hide PutAll, Evictions, Put;
      if closed { return false; }
      accepted := AppendAll(kind, records, model.At(kind));
      if |queues[kind]| >= maxBatch {
        wake := true;
      }
      model := Submitted(Setup(), model, kind, records);
    }

    // The loop of _submit: each record is counted, and so is the one it pushes out.
    method AppendAll(kind: Kind, records: seq<Record>, ghost lane: Lane) returns (accepted: bool)
      requires kind in queues && queues[kind] == lane.queue
      modifies this`queues, this`dropped, this`submitted
      ensures queues == old(queues)[kind := PutAll(maxQueue, lane, records).queue]
      ensures submitted == old(submitted) + |records|
      ensures dropped == old(dropped) + Evictions(maxQueue, lane, records)
      ensures accepted <==> Evictions(maxQueue, lane, records) == 0
    {
      hide PutAll, Evictions, Put;
      accepted := true;
      ghost var l := lane;
      assert records[0..] == records;
      var i := 0;
      while i < |records|
        invariant 0 <= i <= |records|
        invariant queues == old(queues)[kind := l.queue]
        invariant PutAll(maxQueue, l, records[i..]) == PutAll(maxQueue, lane, records)
        invariant dropped + Evictions(maxQueue, l, records[i..]) == old(dropped) + Evictions(maxQueue, lane, records)
        invariant submitted == old(submitted) + i
        invariant accepted <==> dropped == old(dropped)
        invariant dropped >= old(dropped)
      {
        PutAllTurn(maxQueue, l, records, i);
        if |queues[kind]| == maxQueue {
          dropped := dropped + 1;
          accepted := false;
        }
        queues := queues[kind := Appended(queues[kind], records[i])];
        l := Put(maxQueue, l, records[i]);
        submitted := submitted + 1;
        i := i + 1;
      }
      PutAllTurn(maxQueue, l, records, |records|);
    }

    // deque.append: a full deque loses its oldest element.
    function Appended(queue: seq<Record>, record: Record): (r: seq<Record>)
    {
      if |queue| == maxQueue then (queue + [record])[1..] else queue + [record]
    }

    // flush() is entered: wait for the lock.
    method FlushCalled(id: nat)
      requires Valid() && Enabled(model, Call(id))
      modifies this`model
      ensures Valid() && model == Called(old(model), id)
    {
      model := Called(model, id);
    }

    // ... the lock is taken, and the loop over the queues begins.
    method FlushAcquired(task: Task) returns (awaited: Option<Awaited>)
      requires Valid() && Enabled(model, Acquire(task))
      modifies this
      ensures Valid() && model == Acquired(old(model), task)
      ensures awaited == Awaiting()
    {
      model := model.(waiting := model.waiting - {task}, holder := Some(task));
      awaited := FlushLoop(task, 0);
    }

    // What the holder of the lock waits for: the batch in flight, or nothing
    // when its flush is over.
    ghost function Awaiting(): Option<Awaited>
      reads this`model
    {
      if model.flight.None? then None else Some(Awaited(model.flight.value.kind, model.flight.value.batch))
    }

    // The for loop from queue `first` on: an empty queue is passed, a batch is
    // drained before its export is awaited, and at the end the lock is released.
    method FlushLoop(task: Task, first: nat) returns (awaited: Option<Awaited>)
      requires Valid() && model.holder == Some(task)
      modifies this
      ensures Valid() && model == Advance(old(model), first)
      ensures awaited == Awaiting()
    {
      var i := first;
      while i < |KINDS|
        modifies {}
        invariant Advance(model, first) == Advance(model, i)
      {
        if queues[KINDS[i]] != [] { break; }
        i := i + 1;
      }
      if i < |KINDS| {
        awaited := StartExport(KINDS[i]);
      } else {
        awaited := None;
        FlushReleased(task);
      }
    }

    // batch = list(queue); queue.clear(); and the export is awaited.
    method StartExport(kind: Kind) returns (awaited: Option<Awaited>)
      requires Valid()
      modifies this`queues, this`model
      ensures Valid() && model == Launch(old(model), kind) && awaited == Awaiting()
    {
      var batch := queues[kind];
      queues := queues[kind := []];
      awaited := Some(Awaited(kind, batch));
      model := Launch(model, kind);
    }

    // The flush is over: its lock is free and its task continues. The loop sets
    // its event and waits again.
    method FlushReleased(task: Task)
      requires Valid() && model.holder == Some(task)
      modifies this`flushed, this`model
      ensures Valid() && model == Finish(old(model))
    {
      if task == Background {
        flushed := true;
      }
      model := Finish(model);
    }

    // The awaited export is resolved: count it, and go on with the next queue.
    method ExportResolved(task: Task, kind: Kind, batch: seq<Record>, outcome: Outcome)
      returns (awaited: Option<Awaited>)
      requires Valid() && Exporting(model) && model.holder == Some(task) && Awaiting() == Some(Awaited(kind, batch))
      modifies this
      ensures Valid() && model == Resolved(old(model), outcome)
      ensures awaited == Awaiting()
    {
      hide Advance;
      var warned := CountOutcome(batch, outcome);
      awaited := FlushLoop(task, Index(kind) + 1);
    }

    method CountOutcome(batch: seq<Record>, outcome: Outcome) returns (warned: bool)
      requires Valid() && Exporting(model) && batch == model.flight.value.batch
      modifies this`exported, this`dropped, this`consecutiveFailures, this`lastError, this`model
      ensures Valid() && model == Settled(old(model), outcome)
      ensures model.health.warnings == old(model).health.warnings + (if warned then 1 else 0)
    {
      warned := false;
      match outcome {
        case Error(message) =>
          consecutiveFailures := consecutiveFailures + 1;
          lastError := Some(message);
          dropped := dropped + |batch|;
          warned := LogExportFailure();
        case Sent =>
          consecutiveFailures := 0;
          lastError := None;
          exported := exported + |batch|;
        case Partial(rejected, message) =>
          consecutiveFailures := 0;
          lastError := Some("partial success: " + message);
          exported := exported + Max(0, |batch| - rejected);
      }
      model := Settled(model, outcome);
    }

    // _log_export_failure: WARNING for the first failure of a run, DEBUG after.
    method LogExportFailure() returns (warning: bool)
      ensures warning <==> consecutiveFailures == 1
    {
      warning := consecutiveFailures == 1;
    }

    // The task is cancelled while it awaits its export: the drained batch is
    // counted before the cancellation goes on.
    method ExportCancelled(task: Task, batch: seq<Record>)
      requires Valid() && Exporting(model) && model.holder == Some(task) && task !in model.waiting
      requires batch == model.flight.value.batch
      modifies this`dropped, this`model
      ensures Valid() && model == CancelledTask(old(model), task)
    {
      dropped := dropped + |batch|;
      model := CancelledTask(model, task);
    }

    // The task is cancelled while it waits for the lock or for the loop's event.
    method WaitCancelled(task: Task)
      requires Valid() && Cancellable(model, task) && (task in model.waiting || model.holder != Some(task))
      modifies this`model
      ensures Valid() && model == CancelledTask(old(model), task)
    {
      model := CancelledTask(model, task);
    }

    // __aenter__
    method Start()
      requires Valid() && Enabled(model, Enter)
      modifies this`model
      ensures Valid() && model == Entered(old(model))
    {
      model := Entered(model);
    }

    // One turn of _run: the wait is over, by the event or by the timeout.
    method LoopTurn()
      requires Valid() && Enabled(model, Turn)
      modifies this`wake, this`flushed, this`model
      ensures Valid() && model == Turned(old(model))
    {
      wake := false;
      flushed := false;
      model := Turned(model);
    }

    // __aexit__, up to awaiting the cancelled task.
    method ExitCalled()
      requires Valid() && Enabled(model, Exit)
      modifies this`closed, this`model
      ensures Valid() && model == ExitBegun(old(model))
    {
      closed := true;
      model := ExitBegun(model);
    }

    // ... and the final flush.
    method FinalFlushCalled()
      requires Valid() && Enabled(model, Joined)
      modifies this`model
      ensures Valid() && model == ExitJoined(old(model))
    {
      model := ExitJoined(model);
    }
  }
}
