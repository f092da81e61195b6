// with_retry: what the loop does in each turn, and what its budget promises.
// Times are seconds since the loop read the clock first.
module Retry {
  import opened Wrappers

  datatype Policy = Policy(initialBackoff: real, maxBackoff: real, multiplier: real, maxElapsed: real)

  datatype Outcome =
    | Success
    | PartialSuccess(rejected: int)
    | Retryable(retryAfter: Option<real>)
    | Permanent(status: Option<int>)

  // OTLPTransportError, OTLPPermanentError, and everything else that can be
  // raised at a suspension, a cancellation among it.
  datatype Error = TransportError | PermanentError | OtherError

  // What the surroundings decide in one turn: how the attempt ends, how long it
  // takes, the jitter drawn, and by how much the sleep exceeds the request or
  // how it is interrupted. A sleep of less than zero seconds ends at once.
  datatype Round = Round(outcome: Result<Outcome, Error>, took: real, jitter: real, sleep: Result<real, Error>)

  // One attempt as it went: when it started and ended, and the sleep requested after it.
  datatype Pass = Pass(start: real, end: real, outcome: Result<Outcome, Error>, wait: Option<real>)

  datatype Loop = Loop(elapsed: real, passes: seq<Pass>, result: Option<Result<Outcome, Error>>)

  const START := Loop(0.0, [], None)

  function Pow(base: real, n: nat): real {
    if n == 0 then 1.0 else base * Pow(base, n - 1)
  }

  function Min(a: real, b: real): real {
    if b < a then b else a
  }

  function Max(a: real, b: real): real {
    if a < b then b else a
  }

  // `capped`
  function Backoff(p: Policy, attempt: nat): real {
    Min(p.maxBackoff, p.initialBackoff * Pow(p.multiplier, attempt))
  }

  // Full jitter.
  function Draw(jitter: real, capped: real): real {
    jitter * capped
  }

  // `delay`
  function Delay(p: Policy, attempt: nat, retryAfter: Option<real>, jitter: real): real {
    if retryAfter.Some? then retryAfter.value else Draw(jitter, Backoff(p, attempt))
  }

  // The sleep before the next attempt; None when the loop ends with this outcome.
  function Wait(p: Policy, attempt: nat, elapsed: real, outcome: Result<Outcome, Error>, jitter: real): Option<real> {
    if outcome.Raised? || !outcome.value.Retryable? then None
    else if elapsed >= p.maxElapsed then None
    else
      var delay := Delay(p, attempt, outcome.value.retryAfter, jitter);
      if delay > p.maxElapsed - elapsed then None else Some(delay)
  }

  // One turn of the loop.
  function Turn(p: Policy, s: Loop, r: Round): Loop
    requires s.result.None?
  {
    var end := s.elapsed + r.took;
    var wait := Wait(p, |s.passes|, end, r.outcome, r.jitter);
    var passes := s.passes + [Pass(s.elapsed, end, r.outcome, wait)];
    if wait.None? then Loop(end, passes, Some(r.outcome))
    else if r.sleep.Raised? then Loop(end, passes, Some(Raised(r.sleep.error)))
    else Loop(end + Max(0.0, wait.value) + r.sleep.value, passes, None)
  }

  function Next(p: Policy, s: Loop, r: Round): Loop {
    if s.result.Some? then s else Turn(p, s, r)
  }

  // The loop after it was offered these rounds: all of them, or as many as it
  // took before it ended.
  function Run(p: Policy, rounds: seq<Round>): Loop {
    if rounds == [] then START else Next(p, Run(p, rounds[..|rounds| - 1]), rounds[|rounds| - 1])
  }

  // The clock does not go back and a sleep is not cut short.
  predicate Forward(r: Round) {
    r.took >= 0.0 && (r.sleep.Ok? ==> r.sleep.value >= 0.0)
  }

  // ---- the shape of a run ----

  predicate Retried(o: Result<Outcome, Error>) {
    o.Ok? && o.value.Retryable?
  }

  // Every attempt but the last was Retryable and followed by a sleep; a run
  // that has ended returns its last attempt's outcome, unless its last sleep
  // was interrupted.
  predicate Shape(s: Loop) {
    var n := |s.passes|;
    && (forall i :: 0 <= i < n && s.passes[i].wait.Some? ==> Retried(s.passes[i].outcome))
    && (forall i :: 0 <= i < n && (i < n - 1 || s.result.None?) ==> s.passes[i].wait.Some?)
    && (s.result.Some? ==>
          n > 0
          && (s.result == Some(s.passes[n - 1].outcome)
              || (s.result.value.Raised? && s.passes[n - 1].wait.Some?)))
  }

  lemma {:induction false} RunHasShape(p: Policy, rounds: seq<Round>)
    ensures Shape(Run(p, rounds))
  {
    hide Wait;
    if rounds != [] {
      RunHasShape(p, rounds[..|rounds| - 1]);
      WaitIsForRetryable(p, |Run(p, rounds[..|rounds| - 1]).passes|,
        Run(p, rounds[..|rounds| - 1]).elapsed + rounds[|rounds| - 1].took,
        rounds[|rounds| - 1].outcome, rounds[|rounds| - 1].jitter);
    }
  }

  lemma WaitIsForRetryable(p: Policy, attempt: nat, elapsed: real, outcome: Result<Outcome, Error>, jitter: real)
    ensures Wait(p, attempt, elapsed, outcome, jitter).Some? ==> Retried(outcome)
  {
  }

  // ---- the budget ----

  function Requested(passes: seq<Pass>): real {
    if passes == [] then 0.0
    else Requested(passes[..|passes| - 1]) + passes[|passes| - 1].wait.GetOr(0.0)
  }

  // A requested sleep fits into what is left of the budget when it is requested.
  predicate Affordable(p: Policy, a: Pass) {
    a.wait.Some? ==> a.end < p.maxElapsed && a.end + a.wait.value <= p.maxElapsed
  }

  // Attempts follow each other, at least the requested sleep apart.
  predicate Spaced(s: Loop) {
    && (forall i :: 0 <= i < |s.passes| ==> s.passes[i].start <= s.passes[i].end)
    && (forall i :: 0 < i < |s.passes| && s.passes[i - 1].wait.Some? ==>
         s.passes[i - 1].end + s.passes[i - 1].wait.value <= s.passes[i].start)
  }

  predicate Budget(p: Policy, s: Loop) {
    && (forall i :: 0 <= i < |s.passes| ==> Affordable(p, s.passes[i]))
    && Spaced(s)
    && (s.passes != [] && s.result.None? ==>
          s.passes[|s.passes| - 1].end + s.passes[|s.passes| - 1].wait.GetOr(0.0) <= s.elapsed)
    && (s.result.None? ==> Requested(s.passes) <= s.elapsed)
    && Requested(s.passes) <= Max(0.0, p.maxElapsed)
  }

  lemma TurnKeepsBudget(p: Policy, s: Loop, r: Round)
    requires Shape(s) && Budget(p, s) && Forward(r) && s.result.None?
    ensures Budget(p, Turn(p, s, r))
  {
    hide Shape, Retried, Backoff, Wait, Delay, Draw, Pow, Affordable, Spaced, Requested;
    var t := Turn(p, s, r);
    var pass := t.passes[|s.passes|];
    assert t.passes[..|t.passes| - 1] == s.passes;
    WaitedSoFar(s);
    WaitFits(p, |s.passes|, pass.end, r.outcome, r.jitter);
    TurnIsSpaced(p, s, r);
    RequestedGrows(s.passes, pass);
    assert Affordable(p, pass) by { AffordableWait(p, pass); }
  }

  lemma AffordableWait(p: Policy, a: Pass)
    requires a.wait.Some? ==> a.end < p.maxElapsed && a.end + a.wait.value <= p.maxElapsed
    ensures Affordable(p, a)
  {
  }

  lemma RequestedGrows(passes: seq<Pass>, a: Pass)
    ensures Requested(passes + [a]) == Requested(passes) + a.wait.GetOr(0.0)
  {
    assert (passes + [a])[..|passes|] == passes;
  }

  lemma WaitFits(p: Policy, attempt: nat, elapsed: real, outcome: Result<Outcome, Error>, jitter: real)
    ensures var wait := Wait(p, attempt, elapsed, outcome, jitter);
      wait.Some? ==> elapsed < p.maxElapsed && elapsed + wait.value <= p.maxElapsed
  {
    hide Delay;
  }

  lemma TurnIsSpaced(p: Policy, s: Loop, r: Round)
    requires Spaced(s) && Forward(r) && s.result.None?
    requires s.passes != [] && s.passes[|s.passes| - 1].wait.Some? ==>
      s.passes[|s.passes| - 1].end + s.passes[|s.passes| - 1].wait.value <= s.elapsed
    ensures Spaced(Turn(p, s, r))
  {
    hide Wait;
    var t := Turn(p, s, r);
    assert forall i :: 0 <= i < |s.passes| ==> t.passes[i] == s.passes[i];
  }

  lemma WaitedSoFar(s: Loop)
    requires Shape(s) && s.result.None?
    ensures forall i :: 0 <= i < |s.passes| ==> s.passes[i].wait.Some?
  {
  }

  lemma {:induction false} RunKeepsBudget(p: Policy, rounds: seq<Round>)
    requires forall r :: r in rounds ==> Forward(r)
    ensures Budget(p, Run(p, rounds))
  {
    hide Budget, Shape, Forward, Turn;
    if rounds == [] {
      BudgetAtStart(p);
    } else {
      var before := rounds[..|rounds| - 1];
      RunKeepsBudget(p, before);
      RunHasShape(p, before);
      if Run(p, before).result.None? {
        TurnKeepsBudget(p, Run(p, before), rounds[|rounds| - 1]);
      }
    }
  }

  lemma BudgetAtStart(p: Policy)
    ensures Budget(p, START)
  {
  }

  // The sleeps requested over a whole run sum to at most max_elapsed.
  lemma DelaysFitBudget(p: Policy, rounds: seq<Round>)
    requires forall r :: r in rounds ==> Forward(r)
    ensures Requested(Run(p, rounds).passes) <= Max(0.0, p.maxElapsed)
  {
    RunKeepsBudget(p, rounds);
  }

  // Every attempt after the first starts within max_elapsed, late only by what
  // the sleep before it took beyond the request; with exact sleeps, not at all.
  lemma {:induction false} AttemptsStartInBudget(p: Policy, rounds: seq<Round>, i: nat)
    requires forall r :: r in rounds ==> Forward(r)
    requires 0 < i < |Run(p, rounds).passes|
    ensures i <= |rounds| && rounds[i - 1].sleep.Ok?
    ensures Run(p, rounds).passes[i].start <= p.maxElapsed + rounds[i - 1].sleep.value
    ensures rounds[i - 1].sleep == Ok(0.0) ==> Run(p, rounds).passes[i].start <= p.maxElapsed
  {
    hide Shape, Run, Spaced, Requested;
    RunKeepsBudget(p, rounds);
    SleepsBefore(p, rounds, i);
    assert Affordable(p, Run(p, rounds).passes[i - 1]);
  }

  // An attempt starts when the sleep before it is over.
  lemma {:induction false} SleepsBefore(p: Policy, rounds: seq<Round>, i: nat)
    requires 0 < i
    ensures var s := Run(p, rounds);
      i < |s.passes| || (i == |s.passes| && s.result.None?) ==>
        && i <= |rounds| && rounds[i - 1].sleep.Ok? && s.passes[i - 1].wait.Some?
        && (if i < |s.passes| then s.passes[i].start else s.elapsed)
             == s.passes[i - 1].end + Max(0.0, s.passes[i - 1].wait.value) + rounds[i - 1].sleep.value
  {
    hide Wait;
    if rounds != [] {
      SleepsBefore(p, rounds[..|rounds| - 1], i);
      EveryRoundIsAPass(p, rounds[..|rounds| - 1]);
    }
  }

  // ---- the delays ----

  // Attempt i is round i, and what is slept after it is what the loop computed from it.
  lemma {:induction false} PassIsRound(p: Policy, rounds: seq<Round>, i: nat)
    ensures var passes := Run(p, rounds).passes;
      i < |passes| ==>
        && i < |rounds| && passes[i].outcome == rounds[i].outcome
        && passes[i].end == passes[i].start + rounds[i].took
        && passes[i].wait == Wait(p, i, passes[i].end, rounds[i].outcome, rounds[i].jitter)
  {
    hide Wait;
    if rounds != [] {
      PassIsRound(p, rounds[..|rounds| - 1], i);
      EveryRoundIsAPass(p, rounds[..|rounds| - 1]);
    }
  }

  // A number between zero and a bound on either side of it.
  predicate UpTo(d: real, bound: real) {
    if bound >= 0.0 then 0.0 <= d <= bound else bound <= d <= 0.0
  }

  // The pause that is due: what the server asked for, or the jitter's share of the cap.
  function Due(p: Policy, i: nat, retryAfter: Option<real>, jitter: real): real {
    match retryAfter
    case Some(asked) => asked
    case None => jitter * Backoff(p, i)
  }

  lemma DueIsSlept(p: Policy, i: nat, retryAfter: Option<real>, jitter: real)
    ensures Delay(p, i, retryAfter, jitter) == Due(p, i, retryAfter, jitter)
  {
    hide Backoff;
  }

  // The loop sleeps after an attempt exactly when that was Retryable, the budget
  // is not used up, and the pause that is due fits into the rest of it.
  lemma PausesExactlyWhen(p: Policy, rounds: seq<Round>, i: nat)
    requires i < |Run(p, rounds).passes|
    ensures i < |rounds|
    ensures var a, r := Run(p, rounds).passes[i], rounds[i];
      && a.outcome == r.outcome && a.end == a.start + r.took
      && (r.outcome.Ok? && r.outcome.value.Retryable? ==>
            var due := Due(p, i, r.outcome.value.retryAfter, r.jitter);
            a.wait == if a.end < p.maxElapsed && a.end + due <= p.maxElapsed then Some(due) else None)
      && (r.outcome.Raised? || !r.outcome.value.Retryable? ==> a.wait == None)
  {
    hide Delay, Due, Run;
    PassIsRound(p, rounds, i);
    var a, r := Run(p, rounds).passes[i], rounds[i];
    if Retried(r.outcome) {
      WaitFor(p, i, a.end, r.outcome.value.retryAfter, r.jitter);
      DueIsSlept(p, i, r.outcome.value.retryAfter, r.jitter);
    }
  }

  lemma WaitFor(p: Policy, attempt: nat, elapsed: real, retryAfter: Option<real>, jitter: real)
    ensures var due := Delay(p, attempt, retryAfter, jitter);
      Wait(p, attempt, elapsed, Ok(Retryable(retryAfter)), jitter)
      == if elapsed < p.maxElapsed && elapsed + due <= p.maxElapsed then Some(due) else None
  {
    hide Delay;
  }

  // Full jitter: the cap itself at one, and in proportion below.
  lemma DrawIsAShare(j: real, b: real)
    ensures Draw(j, b) == j * b
  {
  }

  // And it goes on exactly while it sleeps without being interrupted; otherwise
  // it ends with the last outcome, or with the interruption.
  lemma {:induction false} EndsExactlyWhen(p: Policy, rounds: seq<Round>)
    ensures var s := Run(p, rounds); var n := |s.passes|;
      && n <= |rounds|
      && (s.result.None? ==> n == |rounds| && forall i :: 0 <= i < n ==> s.passes[i].wait.Some? && rounds[i].sleep.Ok?)
      && (s.result.Some? ==>
            && n > 0
            && (forall i :: 0 <= i < n - 1 ==> s.passes[i].wait.Some? && rounds[i].sleep.Ok?)
            && (if s.passes[n - 1].wait.None? then s.result.value == rounds[n - 1].outcome
                else rounds[n - 1].sleep.Raised? && s.result.value == Raised(rounds[n - 1].sleep.error)))
  {
    hide Wait;
    if rounds != [] {
      EndsExactlyWhen(p, rounds[..|rounds| - 1]);
    }
  }

  // A server's retry_after is slept in full or not at all, and without one the
  // delay lies between zero and the cap of that attempt.
  lemma DelaysAreDrawnOrAsked(p: Policy, rounds: seq<Round>, i: nat)
    requires i < |Run(p, rounds).passes| && Run(p, rounds).passes[i].wait.Some?
    ensures i < |rounds| && Retried(rounds[i].outcome)
    ensures var wait, asked := Run(p, rounds).passes[i].wait.value, rounds[i].outcome.value.retryAfter;
      && (asked.Some? ==> wait == asked.value)
      && (asked.None? ==> wait == rounds[i].jitter * Backoff(p, i))
      && (asked.None? && 0.0 <= rounds[i].jitter <= 1.0 ==> UpTo(wait, Backoff(p, i)))
    ensures Backoff(p, i) <= p.maxBackoff
  {
    hide Backoff, Draw, Run, UpTo;
    PassIsRound(p, rounds, i);
    CapIsCapped(p, i);
    DrawIsAShare(rounds[i].jitter, Backoff(p, i));
    if 0.0 <= rounds[i].jitter <= 1.0 {
      Fraction(rounds[i].jitter, Backoff(p, i));
    }
  }

  // The first cap is the first backoff, and each next one the multiple of the
  // cap before it, as long as max_backoff leaves room.
  lemma CapsGrowByTheMultiplier(p: Policy, i: nat)
    ensures Backoff(p, 0) == if p.initialBackoff <= p.maxBackoff then p.initialBackoff else p.maxBackoff
    ensures Backoff(p, i) < p.maxBackoff ==>
      var next := p.multiplier * Backoff(p, i);
      Backoff(p, i + 1) == if next <= p.maxBackoff then next else p.maxBackoff
    ensures Backoff(p, i) == p.maxBackoff && p.initialBackoff >= 0.0 && p.multiplier >= 1.0 ==>
      Backoff(p, i + 1) == p.maxBackoff
  {
    assert Pow(p.multiplier, 0) == 1.0;
    var power := Pow(p.multiplier, i);
    assert Pow(p.multiplier, i + 1) == p.multiplier * power;
    Reorder(p.initialBackoff, p.multiplier, power);
    if p.initialBackoff >= 0.0 && p.multiplier >= 1.0 {
      NextCap(p, i);
      CapIsCapped(p, i + 1);
    }
  }

  lemma Reorder(a: real, b: real, c: real)
    ensures a * (b * c) == b * (a * c)
  {
  }

  lemma Fraction(j: real, b: real)
    requires 0.0 <= j <= 1.0
    ensures UpTo(Draw(j, b), b)
  {
    assert b - j * b == (1.0 - j) * b;
  }

  lemma CapIsCapped(p: Policy, attempt: nat)
    ensures Backoff(p, attempt) <= p.maxBackoff
  {
  }

  lemma {:induction false} PowNonNegative(base: real, n: nat)
    requires base >= 0.0
    ensures Pow(base, n) >= 0.0
  {
    if n > 0 { PowNonNegative(base, n - 1); }
  }

  // With settings that are not negative, neither is a cap.
  lemma CapIsNotNegative(p: Policy, attempt: nat)
    requires p.initialBackoff >= 0.0 && p.maxBackoff >= 0.0 && p.multiplier >= 0.0
    ensures 0.0 <= Backoff(p, attempt)
  {
    PowNonNegative(p.multiplier, attempt);
  }

  // The caps do not fall from one attempt to the next when the multiplier is at least one.
  lemma CapsDoNotFall(p: Policy, i: nat, j: nat)
    requires p.initialBackoff >= 0.0 && p.multiplier >= 1.0 && i <= j
    ensures Backoff(p, i) <= Backoff(p, j)
    decreases j - i
  {
    hide Backoff;
    if i < j {
      CapsDoNotFall(p, i, j - 1);
      NextCap(p, j - 1);
    }
  }

  lemma NextCap(p: Policy, i: nat)
    requires p.initialBackoff >= 0.0 && p.multiplier >= 1.0
    ensures Backoff(p, i) <= Backoff(p, i + 1)
  {
    PowNonNegative(p.multiplier, i);
    Grows(p.initialBackoff, Pow(p.multiplier, i), p.multiplier);
  }

  lemma Grows(initial: real, power: real, multiplier: real)
    requires initial >= 0.0 && power >= 0.0 && multiplier >= 1.0
    ensures initial * power <= initial * (multiplier * power)
  {
    assert multiplier * power - power == (multiplier - 1.0) * power;
    assert initial * (multiplier * power) - initial * power == initial * (multiplier * power - power);
  }

  // After a server asked for a pause, the next attempt starts no sooner than that.
  lemma RetryAfterIsNeverShortened(p: Policy, rounds: seq<Round>, i: nat)
    requires forall r :: r in rounds ==> Forward(r)
    requires i + 1 < |Run(p, rounds).passes|
    ensures var passes := Run(p, rounds).passes;
      && Retried(passes[i].outcome)
      && (passes[i].outcome.value.retryAfter.Some? ==>
            passes[i].end + passes[i].outcome.value.retryAfter.value <= passes[i + 1].start)
  {
    hide Wait;
    RunHasShape(p, rounds);
    RunKeepsBudget(p, rounds);
    assert Run(p, rounds).passes[i].wait.Some?;
    DelaysAreDrawnOrAsked(p, rounds, i);
    PassIsRound(p, rounds, i);
  }

  // ---- how many attempts ----

  function Ceil(x: real): int {
    -((-x).Floor)
  }

  predicate Costs(r: Round, eps: real) {
    Forward(r) && r.took >= eps
  }

  // What n attempts cost at least.
  function Cost(n: nat, eps: real): real {
    n as real * eps
  }

  lemma OneMore(n: nat, eps: real)
    ensures Cost(n + 1, eps) == Cost(n, eps) + eps
  {
  }

  // When every attempt costs at least eps, the loop makes at most
  // ceil(max_elapsed / eps) of them, and one when that is less than one.
  lemma AttemptsAreBounded(p: Policy, rounds: seq<Round>, eps: real)
    requires eps > 0.0 && forall r :: r in rounds ==> Costs(r, eps)
    ensures |Run(p, rounds).passes| <= 1 || |Run(p, rounds).passes| <= Ceil(p.maxElapsed / eps)
  {
    hide Shape, Budget, Cost, Ceil, Run;
    var s := Run(p, rounds);
    var n := |s.passes|;
    if n > 1 {
      EachAttemptCosts(p, rounds, eps, n - 2);
      AttemptWithin(p, s, rounds, n - 2);
      Rounding(n - 1, p.maxElapsed, eps);
    }
  }

  // An attempt that is not the last ends before max_elapsed.
  lemma AttemptWithin(p: Policy, s: Loop, rounds: seq<Round>, i: nat)
    requires s == Run(p, rounds) && (forall r :: r in rounds ==> Forward(r)) && i + 1 < |s.passes|
    ensures s.passes[i].end < p.maxElapsed
  {
    RunHasShape(p, rounds);
    RunKeepsBudget(p, rounds);
    assert Affordable(p, s.passes[i]);
  }

  lemma Rounding(n: nat, limit: real, eps: real)
    requires eps > 0.0 && Cost(n, eps) < limit
    ensures n + 1 <= Ceil(limit / eps)
  {
    assert n as real < limit / eps;
  }

  // An attempt ends no earlier than all attempts up to it cost.
  lemma {:induction false} EachAttemptCosts(p: Policy, rounds: seq<Round>, eps: real, i: nat)
    requires eps > 0.0 && forall r :: r in rounds ==> Costs(r, eps)
    ensures var s := Run(p, rounds);
      && (i < |s.passes| ==> s.passes[i].end >= Cost(i + 1, eps))
      && (s.result.None? ==> s.elapsed >= Cost(|s.passes|, eps))
  {
    hide Wait, Cost;
    if rounds == [] {
      NoAttempts(eps);
    } else {
      var before := Run(p, rounds[..|rounds| - 1]);
      var r := rounds[|rounds| - 1];
      assert Costs(r, eps);
      EachAttemptCosts(p, rounds[..|rounds| - 1], eps, i);
      OneMore(|before.passes|, eps);
    }
  }

  lemma NoAttempts(eps: real)
    ensures Cost(0, eps) == 0.0
  {
  }

  // n attempts that each cost eps and are asked to come back at once.
  function Hurried(eps: real, n: nat): seq<Round> {
    seq(n, i => Round(Ok(Retryable(Some(0.0))), eps, 0.0, Ok(0.0)))
  }

  // The bound is exact, and without a positive cost there is none: after n
  // such attempts the loop goes on exactly when n * eps is still below
  // max_elapsed, which for eps = 0 is always or never.
  lemma {:induction false} HurriedLoopGoesOn(p: Policy, eps: real, n: nat)
    requires eps >= 0.0 && n > 0
    ensures Run(p, Hurried(eps, n)).result.None? <==> Cost(n, eps) < p.maxElapsed
    ensures Run(p, Hurried(eps, n)).result.None? ==>
      Run(p, Hurried(eps, n)).elapsed == Cost(n, eps) && |Run(p, Hurried(eps, n)).passes| == n
  {
    hide Cost, Backoff;
    var rounds := Hurried(eps, n);
    assert rounds[..n - 1] == Hurried(eps, n - 1);
    OneMore(n - 1, eps);
    NoAttempts(eps);
    if n > 1 {
      HurriedLoopGoesOn(p, eps, n - 1);
      CostGrows(n - 1, eps);
    } else {
      assert Hurried(eps, 0) == [];
    }
  }

  lemma CostGrows(n: nat, eps: real)
    requires eps >= 0.0
    ensures 0.0 <= Cost(n, eps) <= Cost(n + 1, eps)
  {
    OneMore(n, eps);
  }

  // The caller gets the last attempt's outcome, and every earlier one was Retryable.
  lemma ResultIsLastOutcome(p: Policy, rounds: seq<Round>)
    requires Run(p, rounds).result.Some?
    requires forall r :: r in rounds ==> r.sleep.Ok?
    ensures var s := Run(p, rounds); var n := |s.passes|;
      && n > 0 && s.result.value == s.passes[n - 1].outcome
      && forall i :: 0 <= i < n - 1 ==> Retried(s.passes[i].outcome)
  {
    RunHasShape(p, rounds);
    EndsWithoutWaiting(p, rounds);
  }

  lemma {:induction false} EndsWithoutWaiting(p: Policy, rounds: seq<Round>)
    requires forall r :: r in rounds ==> r.sleep.Ok?
    ensures var s := Run(p, rounds);
      s.result.Some? ==> s.passes != [] && s.passes[|s.passes| - 1].wait.None?
  {
    hide Wait;
    if rounds != [] {
      EndsWithoutWaiting(p, rounds[..|rounds| - 1]);
    }
  }

  // A Retryable outcome is given up only when the budget is used up, or when the
  // delay that was due does not fit into the rest of it.
  lemma {:induction false} GivesUpOnlyForBudget(p: Policy, rounds: seq<Round>)
    requires Run(p, rounds).result.Some?
    ensures var s := Run(p, rounds); var n := |s.passes|;
      && 0 < n <= |rounds| && s.passes[n - 1].outcome == rounds[n - 1].outcome
      && (Retried(rounds[n - 1].outcome) && rounds[n - 1].sleep.Ok? ==>
            || s.passes[n - 1].end >= p.maxElapsed
            || s.passes[n - 1].end + Delay(p, n - 1, rounds[n - 1].outcome.value.retryAfter, rounds[n - 1].jitter)
               > p.maxElapsed)
  {
    hide Delay;
    var before := Run(p, rounds[..|rounds| - 1]);
    if before.result.Some? {
      GivesUpOnlyForBudget(p, rounds[..|rounds| - 1]);
    } else {
      EveryRoundIsAPass(p, rounds[..|rounds| - 1]);
    }
  }

  lemma {:induction false} EveryRoundIsAPass(p: Policy, rounds: seq<Round>)
    ensures Run(p, rounds).result.None? ==> |Run(p, rounds).passes| == |rounds|
  {
    hide Wait;
    if rounds != [] {
      EveryRoundIsAPass(p, rounds[..|rounds| - 1]);
    }
  }
}
