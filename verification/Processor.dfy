// BatchProcessor as a transition system. A step is the code between two
// awaits: a submit, a flush from taking the lock to its first export, a flush
// from the end of one export to the start of the next, a cancellation, a turn
// of the background loop, a stage of shutdown. Any number of tasks take turns
// in any order.
module Processor {
  import opened Wrappers
  import opened Lane

  datatype Kind = Metrics | Logs | Traces

  // The order of the queues dictionary, which is the order of a flush.
  const KINDS: seq<Kind> := [Metrics, Logs, Traces]

  function Index(k: Kind): nat {
    match k case Metrics => 0 case Logs => 1 case Traces => 2
  }

  datatype Config = Config(maxBatch: int, maxQueue: nat)

  // Who runs a flush.
  datatype Task = Background | Exiter | Caller(id: nat)

  // What awaiting the client produced.
  datatype Outcome = Sent | Partial(rejected: int, message: string) | Error(message: string)

  // The batch in the hands of the lock's holder: entry `entry` of the log of `kind`.
  datatype Flight = Flight(kind: Kind, entry: nat, batch: seq<Record>)

  datatype LoopState = NotStarted | Idle | Flushing | Dead
  datatype ExitState = NotCalled | Joining | FinalFlush | Returned | Aborted

  datatype Lanes = Lanes(metrics: Lane, logs: Lane, traces: Lane) {
    function At(k: Kind): Lane {
      match k case Metrics => metrics case Logs => logs case Traces => traces
    }

    function With(k: Kind, l: Lane): (r: Lanes)
      ensures r.At(k) == l
      ensures forall j: Kind :: j != k ==> r.At(j) == At(j)
    {
      match k
      case Metrics => this.(metrics := l)
      case Logs => this.(logs := l)
      case Traces => this.(traces := l)
    }
  }

  // consecutive_failures and last_error; warnings counts the log records at
  // WARNING level, and verdicts is the history of resolved exports.
  datatype Health = Health(failures: int, lastError: Option<string>, warnings: nat, verdicts: seq<Outcome>)

  datatype State = State(
    lanes: Lanes, submitted: int, exported: int, dropped: int, health: Health,
    closed: bool, wake: bool, flushed: bool,
    holder: Option<Task>, waiting: set<Task>, flight: Option<Flight>,
    loop: LoopState, exit: ExitState)
  {
    function At(k: Kind): Lane { lanes.At(k) }

    function With(k: Kind, l: Lane): State { this.(lanes := lanes.With(k, l)) }

    // The log entry of `k` whose export is running, or -1.
    function Pending(k: Kind): int {
      if flight.Some? && flight.value.kind == k then flight.value.entry else -1
    }
  }

  const INITIAL := State(Lanes(EMPTY, EMPTY, EMPTY), 0, 0, 0, Health(0, None, 0, []), false, false, false,
                         None, {}, None, NotStarted, NotCalled)

  datatype Event =
    | Submit(kind: Kind, records: seq<Record>)
    | Call(id: nat)            // a caller enters flush()
    | Acquire(task: Task)      // a waiting flush gets the lock
    | Resolve(outcome: Outcome)
    | Cancel(task: Task)
    | Enter                    // __aenter__
    | Turn                     // the loop's wait ends, by wake event or timeout
    | Exit                     // __aexit__ is called
    | Joined                   // ... and has awaited the loop's task

  // ---- steps ----

  function Submitted(c: Config, s: State, k: Kind, rs: seq<Record>): State {
    if s.closed then s else
    var l := PutAll(c.maxQueue, s.At(k), rs);
    s.With(k, l).(
      submitted := s.submitted + |rs|,
      dropped := s.dropped + Evictions(c.maxQueue, s.At(k), rs),
      wake := s.wake || |l.queue| >= c.maxBatch)
  }

  // submit_* returns False when closed or when anything was dropped.
  predicate Accepted(c: Config, s: State, k: Kind, rs: seq<Record>) {
    !s.closed && Evictions(c.maxQueue, s.At(k), rs) == 0
  }

  // The holder's flush is over: the lock is released and its task goes on.
  function Finish(s: State): State
    requires s.holder.Some?
  {
    var released := s.(holder := None, flight := None);
    match s.holder.value
    case Background => released.(loop := Idle, flushed := true)
    case Exiter => released.(exit := Returned)
    case Caller(_) => released
  }

  // The for loop of flush() from queue i on, up to the next export or the end.
  function Advance(s: State, i: nat): State
    requires s.holder.Some?
    decreases 3 - i
  {
    if i >= 3 then Finish(s)
    else
      var l := s.At(KINDS[i]);
      if l.queue == [] then Advance(s, i + 1) else Launch(s, KINDS[i])
  }

  // batch = list(queue); queue.clear(); and the export of the batch starts.
  function Launch(s: State, k: Kind): State {
    var l := s.At(k);
    s.With(k, Drain(l)).(flight := Some(Flight(k, |l.log|, l.queue)))
  }

  // A failure extends the run of failures and is logged, at WARNING when it
  // is the first of the run; anything else ends the run.
  function Noted(h: Health, o: Outcome): Health {
    match o
    case Sent => Health(0, None, h.warnings, h.verdicts + [o])
    case Partial(_, message) => Health(0, Some("partial success: " + message), h.warnings, h.verdicts + [o])
    case Error(message) =>
      Health(h.failures + 1, Some(message), h.warnings + (if h.failures + 1 == 1 then 1 else 0), h.verdicts + [o])
  }

  function FateOf(o: Outcome): Fate {
    match o
    case Sent => Delivered(0)
    case Partial(rejected, _) => Delivered(rejected)
    case Error(_) => Failed
  }

  // The bookkeeping of one resolved export.
  function Settled(s: State, o: Outcome): State
    requires s.flight.Some? && s.flight.value.entry < |s.At(s.flight.value.kind).log|
  {
    var f := s.flight.value;
    s.With(f.kind, Settle(s.At(f.kind), f.entry, FateOf(o))).(
      exported := s.exported + (match o
        case Sent => |f.batch|
        case Partial(rejected, _) => Max(0, |f.batch| - rejected)
        case Error(_) => 0),
      dropped := s.dropped + (if o.Error? then |f.batch| else 0),
      health := Noted(s.health, o),
      flight := None)
  }

  // A cancelled task leaves whatever await it is in.
  function TaskEnds(s: State, t: Task): State {
    match t
    case Background => s.(loop := Dead)
    case Exiter => s.(exit := Aborted)
    case Caller(_) => s
  }

  function CancelExport(s: State): State
    requires s.holder.Some?
    requires s.flight.Some? && s.flight.value.entry < |s.At(s.flight.value.kind).log|
  {
    var f := s.flight.value;
    TaskEnds(s.With(f.kind, Settle(s.At(f.kind), f.entry, Cancelled)).(
               dropped := s.dropped + |f.batch|, holder := None, flight := None),
             s.holder.value)
  }

  predicate Exporting(s: State) {
    s.holder.Some? && s.flight.Some? && s.flight.value.entry < |s.At(s.flight.value.kind).log|
  }

  predicate Enabled(s: State, e: Event) {
    match e
    case Submit(_, _) => true
    case Call(id) => Caller(id) !in s.waiting && s.holder != Some(Caller(id))
    case Acquire(t) => t in s.waiting && s.holder.None?
    case Resolve(_) => Exporting(s)
    case Cancel(t) => Cancellable(s, t)
    case Enter => s.loop.NotStarted?
    case Turn => s.loop.Idle?
    case Exit => s.exit.NotCalled?
    case Joined => s.exit.Joining? && (s.loop.Dead? || s.loop.NotStarted?)
  }

  // A task can be cancelled while it waits for the lock, exports, or idles.
  predicate Cancellable(s: State, t: Task) {
    t in s.waiting || (s.holder == Some(t) && Exporting(s)) || (t.Background? && s.loop.Idle?)
  }

  function Called(s: State, id: nat): State {
    s.(waiting := s.waiting + {Caller(id)})
  }

  function Acquired(s: State, t: Task): State {
    Advance(s.(waiting := s.waiting - {t}, holder := Some(t)), 0)
  }

  function Resolved(s: State, o: Outcome): State
    requires Exporting(s)
  {
    Advance(Settled(s, o), Index(s.flight.value.kind) + 1)
  }

  function CancelledTask(s: State, t: Task): State {
    if t in s.waiting then TaskEnds(s.(waiting := s.waiting - {t}), t)
    else if s.holder == Some(t) && Exporting(s) then CancelExport(s)
    else TaskEnds(s, t)
  }

  function Entered(s: State): State {
    s.(loop := Idle)
  }

  function Turned(s: State): State {
    s.(wake := false, flushed := false, loop := Flushing, waiting := s.waiting + {Background})
  }

  function ExitBegun(s: State): State {
    s.(closed := true, exit := Joining)
  }

  function ExitJoined(s: State): State {
    s.(exit := FinalFlush, waiting := s.waiting + {Exiter})
  }

  function Step(c: Config, s: State, e: Event): State
    requires Enabled(s, e)
  {
    match e
    case Submit(k, rs) => Submitted(c, s, k, rs)
    case Call(id) => Called(s, id)
    case Acquire(t) => Acquired(s, t)
    case Resolve(o) => Resolved(s, o)
    case Cancel(t) => CancelledTask(s, t)
    case Enter => Entered(s)
    case Turn => Turned(s)
    case Exit => ExitBegun(s)
    case Joined => ExitJoined(s)
  }

  // An event that is not enabled does not happen.
  function Next(c: Config, s: State, e: Event): State {
    if Enabled(s, e) then Step(c, s, e) else s
  }

  function Run(c: Config, s: State, events: seq<Event>): State
    decreases |events|
  {
    if events == [] then s else Run(c, Next(c, s, events[0]), events[1..])
  }

  lemma {:induction false} RunAppend(c: Config, s: State, first: seq<Event>, more: seq<Event>)
    ensures Run(c, s, first + more) == Run(c, Run(c, s, first), more)
    decreases |first|
  {
    if first == [] {
      assert first + more == more;
    } else {
      assert (first + more)[1..] == first[1..] + more;
      RunAppend(c, Next(c, s, first[0]), first[1..], more);
    }
  }
}
