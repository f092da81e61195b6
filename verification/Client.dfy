// _export as it runs: the closure with its flag, and the loop around it.
module Client {
  import opened Wrappers
  import opened Retry
  import opened Export

  // The first n turns of what the surroundings will answer.
  function Offered(world: nat -> Answers, n: nat): seq<Answers> {
    seq(n, i requires 0 <= i => world(i))
  }

  // A run ends when every attempt takes some time: it is over after this many turns.
  function Turns(policy: Policy, eps: real): nat
    requires eps > 0.0
  {
    if Ceil(policy.maxElapsed / eps) > 1 then Ceil(policy.maxElapsed / eps) + 1 else 2
  }

  lemma RunsEndInTime(setup: Setup, world: nat -> Answers, eps: real)
    requires eps > 0.0 && forall k: nat :: Paced(world(k), eps)
    ensures After(setup, Offered(world, Turns(setup.policy, eps))).Loop(setup).result.Some?
  {
    ExportsEnd(setup, Offered(world, Turns(setup.policy, eps)), eps);
  }

  // attempt() with the variable it shares with _export.
  class Closure {
    const setup: Setup
    var reauthed: bool
    // Everything done so far.
    ghost var trace: seq<Effect>

    constructor (setup: Setup)
      ensures this.setup == setup && !reauthed && trace == []
    {
      this.setup := setup;
      reauthed := false;
      trace := [];
    }

    // resolve()
    method ResolveHeaders(provided: Result<Headers, Error>) returns (r: Result<Option<Headers>, Error>)
      modifies this`trace
      ensures r == Resolve(setup, provided)
      ensures trace == old(trace) + Asks(setup, provided)
    {
      if !setup.hasProvider {
        return Ok(Some(setup.configured));
      }
      trace := trace + [Asked(provided)];
      if provided.Ok? {
        return Ok(Some(setup.configured + provided.value));
      }
      if provided.error == TransportError {
        return Ok(None);
      }
      r := Raised(provided.error);
    }

    method SendPayload(headers: Headers, reply: Result<Outcome, Error>) returns (r: Result<Outcome, Error>)
      modifies this`trace
      ensures r == reply && trace == old(trace) + [Sent(setup.payload, headers, reply)]
    {
      trace := trace + [Sent(setup.payload, headers, reply)];
      r := reply;
    }

    // attempt()
    method Try(a: Answers) returns (outcome: Result<Outcome, Error>)
      modifies this
      ensures var t := Attempt(setup, old(reauthed), a);
        outcome == t.outcome && reauthed == t.reauthed && trace == old(trace) + t.effects
    {
      ghost var before := trace;
      var headers := ResolveHeaders(a.first);
      if headers.Raised? { return Raised(headers.error); }
      if headers.value.None? { return Ok(Retryable(None)); }
      outcome := SendPayload(headers.value.value, a.firstSend);
      if outcome.Raised? { return; }
      if !reauthed && setup.hasProvider && IsCredentialRejection(outcome.value) {
        reauthed := true;
        trace := trace + [Invalidated];
        if a.invalidation.Raised? { return Raised(a.invalidation.error); }
        headers := ResolveHeaders(a.second);
        if headers.Raised? { return Raised(headers.error); }
        if headers.value.None? { return Ok(Retryable(None)); }
        outcome := SendPayload(headers.value.value, a.secondSend);
      }
    }

    // One turn of the loop in with_retry: how it returns, if it does, and the
    // time at which the next attempt starts.
    method LoopTurn(a: Answers, attempt: nat, started: real, now: real, ghost s: State)
      returns (r: Option<Result<Outcome, Error>>, woken: real)
      requires trace == s.trace && reauthed == s.reauthed
      requires s.Loop(setup).result.None?
      requires s.Loop(setup).elapsed == now - started && |s.Loop(setup).passes| == attempt
      modifies this
      ensures var u := Turned(setup, s, a);
        && trace == u.trace && reauthed == u.reauthed && r == u.Loop(setup).result
        && (r.None? ==> u.Loop(setup).elapsed == woken - started && |u.Loop(setup).passes| == attempt + 1)
    {
      hide Attempt, Run, Turned, Draw, Pow;
      var policy := setup.policy;
      TurnInParts(s, a);
      var outcome := Try(a);
      woken := now + a.took;
      if outcome.Raised? || !outcome.value.Retryable? {
        return Some(outcome), woken;
      }
      var elapsed := woken - started;
      if elapsed >= policy.maxElapsed {
        return Some(outcome), woken;
      }
      var capped := Min(policy.maxBackoff, policy.initialBackoff * Pow(policy.multiplier, attempt));
      var delay := if outcome.value.retryAfter.Some? then outcome.value.retryAfter.value else Draw(a.jitter, capped);
      var remaining := policy.maxElapsed - elapsed;
      if delay > remaining {
        return Some(outcome), woken;
      }
      trace := trace + [Slept(delay)];
      if a.sleep.Raised? {
        return Some(Raised(a.sleep.error)), woken;
      }
      return None, woken + Max(0.0, delay) + a.sleep.value;
    }

    // What a turn does, by the sleep that follows the attempt.
    lemma TurnInParts(s: State, a: Answers)
      requires s.Loop(setup).result.None?
      ensures var t, u, loop := Attempt(setup, s.reauthed, a), Turned(setup, s, a), s.Loop(setup);
        var end := loop.elapsed + a.took;
        var wait := Wait(setup.policy, |loop.passes|, end, t.outcome, a.jitter);
        && u.reauthed == t.reauthed
        && u.trace == s.trace + t.effects + (if wait.Some? then [Slept(wait.value)] else [])
        && u.Loop(setup).result == (if wait.None? then Some(t.outcome)
                                    else if a.sleep.Raised? then Some(Raised(a.sleep.error))
                                    else None)
        && |u.Loop(setup).passes| == |loop.passes| + 1
        && (u.Loop(setup).result.None? ==>
              u.Loop(setup).elapsed == end + Max(0.0, wait.value) + a.sleep.value)
    {
      hide Attempt, Wait;
      var round := Round(Attempt(setup, s.reauthed, a).outcome, a.took, a.jitter, a.sleep);
      assert (s.rounds + [round])[..|s.rounds|] == s.rounds;
      assert Run(setup.policy, s.rounds + [round]) == Turn(setup.policy, s.Loop(setup), round);
    }

    // with_retry(attempt, policy), for a run that ends at all: some number of
    // turns brings it to its end.
    method WithRetry(world: nat -> Answers, started: real, ghost turns: nat)
      returns (r: Result<Outcome, Error>, attempts: nat)
      requires !reauthed && trace == []
      requires After(setup, Offered(world, turns)).Loop(setup).result.Some?
      modifies this
      ensures attempts > 0 && After(setup, Offered(world, attempts - 1)).Loop(setup).result.None?
      ensures var s := After(setup, Offered(world, attempts));
        s.Loop(setup).result == Some(r) && trace == s.trace && reauthed == s.reauthed
    {
      hide Run, Turned, Attempt;
      var now := started;
      var attempt := 0;
      NothingOffered(world);
      while true
        invariant trace == After(setup, Offered(world, attempt)).trace
        invariant reauthed == After(setup, Offered(world, attempt)).reauthed
        invariant After(setup, Offered(world, attempt)).Loop(setup).result.None?
        invariant After(setup, Offered(world, attempt)).Loop(setup).elapsed == now - started
        invariant |After(setup, Offered(world, attempt)).Loop(setup).passes| == attempt
        invariant attempt <= turns
        decreases turns - attempt
      {
        ghost var s := After(setup, Offered(world, attempt));
        OneMoreOffered(world, attempt);
        var done, woken := LoopTurn(world(attempt), attempt, started, now, s);
        if done.Some? {
          return done.value, attempt + 1;
        }
        now := woken;
        attempt := attempt + 1;
      }
    }

    lemma NothingOffered(world: nat -> Answers)
      ensures After(setup, Offered(world, 0)) == Export.INITIAL
      ensures Export.INITIAL.Loop(setup) == START
    {
    }

    lemma OneMoreOffered(world: nat -> Answers, n: nat)
      requires After(setup, Offered(world, n)).Loop(setup).result.None?
      ensures After(setup, Offered(world, n + 1)) == Turned(setup, After(setup, Offered(world, n)), world(n))
    {
      hide Run, Turned;
      assert Offered(world, n + 1)[..n] == Offered(world, n);
    }
  }

  class OTLPClient {
    const configured: Headers
    const hasProvider: bool
    const policy: Policy

    constructor (configured: Headers, hasProvider: bool, policy: Policy)
      ensures this.configured == configured && this.hasProvider == hasProvider && this.policy == policy
    {
      this.configured, this.hasProvider, this.policy := configured, hasProvider, policy;
    }

    function SetupFor(payload: Payload): Setup {
      Setup(configured, hasProvider, payload, policy)
    }

    // _export
    method ExportData<T>(data: seq<T>, encode: seq<T> -> Result<Payload, Error>,
                         world: nat -> Answers, started: real, ghost turns: nat)
      returns (r: Result<Outcome, Error>, attempts: nat, ghost trace: seq<Effect>)
      requires data != [] && encode(data).Ok? ==>
        var setup := SetupFor(encode(data).value);
        After(setup, Offered(world, turns)).Loop(setup).result.Some?
      ensures attempts == 0 <==> data == [] || encode(data).Raised?
      ensures attempts == 0 ==> trace == [] && r == if data == [] then Ok(Success) else Raised(encode(data).error)
      ensures attempts > 0 ==>
        var s := After(SetupFor(encode(data).value), Offered(world, attempts));
        var loop := s.Loop(SetupFor(encode(data).value));
        && loop.result.Some? && trace == s.trace
        && (match loop.result.value
            case Ok(Permanent(_)) => r == Raised(PermanentError)
            case Ok(Retryable(_)) => r == Raised(TransportError)
            case result => r == result)
    {
      hide Run, After;
      trace := [];
      if data == [] { return Ok(Success), 0, []; }
      var payload := encode(data);
      if payload.Raised? { return Raised(payload.error), 0, []; }
      var closure := new Closure(SetupFor(payload.value));
      var outcome;
      outcome, attempts := closure.WithRetry(world, started, turns);
      trace := closure.trace;
      if outcome.Raised? { return outcome, attempts, trace; }
      if outcome.value.Permanent? { return Raised(PermanentError), attempts, trace; }
      if outcome.value.Retryable? { return Raised(TransportError), attempts, trace; }
      r := outcome;
    }
  }
}
