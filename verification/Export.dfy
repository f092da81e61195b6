// OTLPClient._export: one re-authentication inside the retry loop. Everything
// the client does to the outside is an effect in a trace; everything the
// outside decides is an answer.
module Export {
  import opened Wrappers
  import opened Retry

  type Headers = map<string, string>
  type Payload = seq<bv8>

  // What stays the same during one export.
  datatype Setup = Setup(configured: Headers, hasProvider: bool, payload: Payload, policy: Policy)

  // What the surroundings decide in one turn of the loop, in the order in which
  // it can be asked for.
  datatype Answers = Answers(
    first: Result<Headers, Error>, firstSend: Result<Outcome, Error>,
    invalidation: Result<(), Error>,
    second: Result<Headers, Error>, secondSend: Result<Outcome, Error>,
    took: real, jitter: real, sleep: Result<real, Error>)

  datatype Effect =
    | Asked(provided: Result<Headers, Error>)   // the credential provider, for headers
    | Sent(payload: Payload, headers: Headers, reply: Result<Outcome, Error>)
    | Invalidated
    | Slept(delay: real)

  // is_credential_rejection
  predicate IsCredentialRejection(o: Outcome) {
    o.Permanent? && (o.status == Some(401) || o.status == Some(403))
  }

  // resolve(): None is the Retryable that a provider's transient failure becomes.
  function Resolve(setup: Setup, provided: Result<Headers, Error>): Result<Option<Headers>, Error> {
    if !setup.hasProvider then Ok(Some(setup.configured))
    else
      match provided
      case Ok(h) => Ok(Some(setup.configured + h))
      case Raised(TransportError) => Ok(None)
      case Raised(error) => Raised(error)
  }

  function Asks(setup: Setup, provided: Result<Headers, Error>): seq<Effect> {
    if setup.hasProvider then [Asked(provided)] else []
  }

  // How an attempt ends, the flag it leaves, and what it did.
  datatype Tried = Tried(outcome: Result<Outcome, Error>, reauthed: bool, effects: seq<Effect>)

  // Headers, then one request.
  function Deliver(setup: Setup, provided: Result<Headers, Error>, reply: Result<Outcome, Error>)
    : (Result<Outcome, Error>, seq<Effect>)
  {
    match Resolve(setup, provided)
    case Raised(error) => (Raised(error), Asks(setup, provided))
    case Ok(None) => (Ok(Retryable(None)), Asks(setup, provided))
    case Ok(Some(headers)) => (reply, Asks(setup, provided) + [Sent(setup.payload, headers, reply)])
  }

  predicate MustReauthenticate(setup: Setup, reauthed: bool, a: Answers) {
    && !reauthed && setup.hasProvider
    && a.first.Ok? && a.firstSend.Ok? && IsCredentialRejection(a.firstSend.value)
  }

  // attempt()
  function Attempt(setup: Setup, reauthed: bool, a: Answers): Tried {
    var (outcome, effects) := Deliver(setup, a.first, a.firstSend);
    if !MustReauthenticate(setup, reauthed, a) then Tried(outcome, reauthed, effects)
    else if a.invalidation.Raised? then Tried(Raised(a.invalidation.error), true, effects + [Invalidated])
    else
      var (again, more) := Deliver(setup, a.second, a.secondSend);
      Tried(again, true, effects + [Invalidated] + more)
  }

  // An export under way: the turns so far as the retry loop sees them, the
  // closure's flag, and the trace.
  datatype State = State(rounds: seq<Round>, reauthed: bool, trace: seq<Effect>) {
    function Loop(setup: Setup): Loop {
      Run(setup.policy, rounds)
    }
  }

  const INITIAL := State([], false, [])

  function LastWait(loop: Loop): seq<Effect> {
    if loop.passes != [] && loop.passes[|loop.passes| - 1].wait.Some?
    then [Slept(loop.passes[|loop.passes| - 1].wait.value)]
    else []
  }

  function Turned(setup: Setup, s: State, a: Answers): State {
    var t := Attempt(setup, s.reauthed, a);
    var rounds := s.rounds + [Round(t.outcome, a.took, a.jitter, a.sleep)];
    State(rounds, t.reauthed, s.trace + t.effects + LastWait(Run(setup.policy, rounds)))
  }

  // The export after it was offered these answers: all of them, or as many as
  // it took before it ended.
  function After(setup: Setup, answers: seq<Answers>): State {
    if answers == [] then INITIAL else
    var s := After(setup, answers[..|answers| - 1]);
    if s.Loop(setup).result.Some? then s else Turned(setup, s, answers[|answers| - 1])
  }

  // What the caller of _export gets: a Permanent or a Retryable is raised.
  function Conclude(result: Result<Outcome, Error>): Result<Outcome, Error> {
    if result.Ok? && result.value.Permanent? then Raised(PermanentError)
    else if result.Ok? && result.value.Retryable? then Raised(TransportError)
    else result
  }

  // ---- the order of effects ----

  // The effect an export, and every new attempt, starts with.
  predicate Opens(setup: Setup, e: Effect) {
    if setup.hasProvider then e.Asked?
    else e.Sent? && e.payload == setup.payload && e.headers == setup.configured
  }

  // What may come directly after an effect.
  predicate Follows(setup: Setup, e: Effect, next: Effect) {
    match e
    case Asked(Ok(h)) =>
      setup.hasProvider && next.Sent? && next.payload == setup.payload && next.headers == setup.configured + h
    case Asked(Raised(error)) => error == TransportError && next.Slept?
    case Sent(_, _, Raised(_)) => false
    case Sent(_, _, Ok(outcome)) =>
      if outcome.Retryable? then next.Slept?
      else IsCredentialRejection(outcome) && setup.hasProvider && next.Invalidated?
    case Invalidated => next.Asked?
    case Slept(_) => Opens(setup, next)
  }

  predicate Ordered(setup: Setup, t: seq<Effect>) {
    && (t != [] ==> Opens(setup, t[0]))
    && (forall i :: 0 <= i < |t| - 1 ==> Follows(setup, t[i], t[i + 1]))
  }

  // How an export ends, by its last effect.
  predicate Closes(e: Effect, result: Result<Outcome, Error>) {
    match e
    case Asked(Ok(_)) => false
    case Asked(Raised(error)) => result == (if error == TransportError then Ok(Retryable(None)) else Raised(error))
    case Sent(_, _, reply) => result == reply
    case Invalidated => result.Raised?
    case Slept(_) => result.Raised?
  }

  lemma OrderedConcat(setup: Setup, t: seq<Effect>, u: seq<Effect>)
    requires Ordered(setup, t)
    requires t == [] ==> Ordered(setup, u)
    requires t != [] && u != [] ==> Follows(setup, t[|t| - 1], u[0])
    requires forall i :: 0 <= i < |u| - 1 ==> Follows(setup, u[i], u[i + 1])
    ensures Ordered(setup, t + u)
  {
    hide Follows, Opens;
    if t == [] {
      assert t + u == u;
    } else {
      var v := t + u;
      forall i | 0 <= i < |v| - 1 ensures Follows(setup, v[i], v[i + 1]) {
        if i < |t| - 1 {
          assert v[i] == t[i] && v[i + 1] == t[i + 1];
        } else if i == |t| - 1 {
          assert v[i] == t[i] && v[i + 1] == u[0];
        } else {
          assert v[i] == u[i - |t|] && v[i + 1] == u[i + 1 - |t|];
        }
      }
    }
  }

  // Asking for headers and sending once.
  lemma DeliveryIsOrdered(setup: Setup, provided: Result<Headers, Error>, reply: Result<Outcome, Error>)
    ensures var (outcome, effects) := Deliver(setup, provided, reply);
      && effects != [] && Ordered(setup, effects) && !effects[|effects| - 1].Slept?
      && Closes(effects[|effects| - 1], outcome)
      && (provided.Ok? ==> effects[|effects| - 1] == Sent(setup.payload, effects[|effects| - 1].headers, reply))
  {
    var effects := Deliver(setup, provided, reply).1;
    assert |effects| <= 2;
  }

  lemma DeliveryTallies(setup: Setup, provided: Result<Headers, Error>, reply: Result<Outcome, Error>)
    ensures var effects := Deliver(setup, provided, reply).1;
      Count(IsInvalidation, effects) == 0 && Count(IsSend, effects) <= 1 && Slumber(effects) == 0.0
  {
    var effects := Deliver(setup, provided, reply).1;
    SingleTally(effects[0]);
    if |effects| == 2 {
      assert effects == [effects[0]] + [effects[1]];
      Tallies([effects[0]], [effects[1]]);
      SingleTally(effects[1]);
    } else {
      assert effects == [effects[0]];
    }
  }

  lemma SingleTally(e: Effect)
    ensures Count(IsInvalidation, [e]) == (if e.Invalidated? then 1 else 0)
    ensures Count(IsSend, [e]) == (if e.Sent? then 1 else 0)
    ensures Slumber([e]) == (if e.Slept? then e.delay else 0.0)
  {
    assert [e][..0] == [];
  }

  // An attempt's effects are in order, its last one decides how it ends, and
  // it sends once more than it invalidates.
  lemma AttemptIsOrdered(setup: Setup, reauthed: bool, a: Answers)
    ensures var t := Attempt(setup, reauthed, a);
      && t.effects != [] && Ordered(setup, t.effects) && !t.effects[|t.effects| - 1].Slept?
      && Closes(t.effects[|t.effects| - 1], t.outcome)
      && Count(IsInvalidation, t.effects) == (if t.reauthed && !reauthed then 1 else 0)
      && (reauthed ==> t.reauthed)
      && Count(IsSend, t.effects) <= 1 + Count(IsInvalidation, t.effects)
      && Slumber(t.effects) == 0.0
  {
    hide Ordered, Deliver, Count, Slumber;
    DeliveryIsOrdered(setup, a.first, a.firstSend);
    DeliveryTallies(setup, a.first, a.firstSend);
    if MustReauthenticate(setup, reauthed, a) {
      ReauthenticationIsOrdered(setup, a);
    }
  }

  lemma ReauthenticationIsOrdered(setup: Setup, a: Answers)
    requires MustReauthenticate(setup, false, a)
    ensures var t := Attempt(setup, false, a);
      && t.effects != [] && Ordered(setup, t.effects) && !t.effects[|t.effects| - 1].Slept?
      && Closes(t.effects[|t.effects| - 1], t.outcome)
      && Count(IsInvalidation, t.effects) == 1 && t.reauthed
      && Count(IsSend, t.effects) <= 2 && Slumber(t.effects) == 0.0
  {
    hide Count, Slumber, IsInvalidation, IsSend, Resolve;
    var (outcome, effects) := Deliver(setup, a.first, a.firstSend);
    var (again, more) := Deliver(setup, a.second, a.secondSend);
    DeliveryIsOrdered(setup, a.first, a.firstSend);
    DeliveryIsOrdered(setup, a.second, a.secondSend);
    SingleTally(Invalidated);
    DeliveryTallies(setup, a.first, a.firstSend);
    DeliveryTallies(setup, a.second, a.secondSend);
    OrderedConcat(setup, effects, [Invalidated]);
    Tallies(effects, [Invalidated]);
    if a.invalidation.Ok? {
      OrderedConcat(setup, effects + [Invalidated], more);
      Tallies(effects + [Invalidated], more);
    }
  }

  // ---- tallies ----

  predicate IsInvalidation(e: Effect) {
    e.Invalidated?
  }

  predicate IsSend(e: Effect) {
    e.Sent?
  }

  function Count(f: Effect -> bool, t: seq<Effect>): nat {
    if t == [] then 0 else Count(f, t[..|t| - 1]) + (if f(t[|t| - 1]) then 1 else 0)
  }

  // The sleeps requested in a trace, in all.
  function Slumber(t: seq<Effect>): real {
    if t == [] then 0.0
    else Slumber(t[..|t| - 1]) + (if t[|t| - 1].Slept? then t[|t| - 1].delay else 0.0)
  }

  lemma {:induction false} CountConcat(f: Effect -> bool, t: seq<Effect>, u: seq<Effect>)
    ensures Count(f, t + u) == Count(f, t) + Count(f, u)
  {
    if u == [] {
      assert t + u == t;
    } else {
      assert (t + u)[..|t + u| - 1] == t + u[..|u| - 1];
      CountConcat(f, t, u[..|u| - 1]);
    }
  }

  lemma {:induction false} SlumberConcat(t: seq<Effect>, u: seq<Effect>)
    ensures Slumber(t + u) == Slumber(t) + Slumber(u)
  {
    if u == [] {
      assert t + u == t;
    } else {
      assert (t + u)[..|t + u| - 1] == t + u[..|u| - 1];
      SlumberConcat(t, u[..|u| - 1]);
    }
  }

  lemma Tallies(t: seq<Effect>, u: seq<Effect>)
    ensures Count(IsInvalidation, t + u) == Count(IsInvalidation, t) + Count(IsInvalidation, u)
    ensures Count(IsSend, t + u) == Count(IsSend, t) + Count(IsSend, u)
    ensures Slumber(t + u) == Slumber(t) + Slumber(u)
  {
    CountConcat(IsInvalidation, t, u);
    CountConcat(IsSend, t, u);
    SlumberConcat(t, u);
  }

  // ---- the invariant of a run ----

  // The trace agrees with the retry loop: it is in order, pauses where the loop
  // pauses, ends as the loop ends, and asks for the same sleeps.
  predicate InStep(setup: Setup, s: State) {
    var loop := s.Loop(setup);
    && Ordered(setup, s.trace)
    && |loop.passes| == |s.rounds|
    && (s.rounds == [] ==> s.trace == [] && loop.result.None?)
    && (s.rounds != [] ==>
          s.trace != []
          && (if loop.result.None? then s.trace[|s.trace| - 1].Slept?
              else Closes(s.trace[|s.trace| - 1], loop.result.value)))
    && Slumber(s.trace) == Requested(loop.passes)
  }

  predicate Tallied(s: State) {
    && Count(IsInvalidation, s.trace) == (if s.reauthed then 1 else 0)
    && Count(IsSend, s.trace) <= |s.rounds| + Count(IsInvalidation, s.trace)
  }

  lemma TurnedIsTallied(setup: Setup, s: State, a: Answers)
    requires Tallied(s)
    ensures Tallied(Turned(setup, s, a))
  {
    hide Count, Slumber, Attempt, Run, IsInvalidation, IsSend;
    var t := Attempt(setup, s.reauthed, a);
    var loop := Run(setup.policy, s.rounds + [Round(t.outcome, a.took, a.jitter, a.sleep)]);
    AttemptIsOrdered(setup, s.reauthed, a);
    Tallies(s.trace, t.effects);
    Tallies(s.trace + t.effects, LastWait(loop));
    WaitCounts(loop);
  }

  lemma WaitCounts(loop: Loop)
    ensures Count(IsInvalidation, LastWait(loop)) == 0 && Count(IsSend, LastWait(loop)) == 0
    ensures Slumber(LastWait(loop)) == if loop.passes == [] then 0.0 else loop.passes[|loop.passes| - 1].wait.GetOr(0.0)
  {
    var w := LastWait(loop);
    if w != [] {
      SingleTally(w[0]);
      assert w == [w[0]];
    } else {
      assert Count(IsInvalidation, w) == 0 && Count(IsSend, w) == 0;
    }
  }

  lemma TurnedIsInStep(setup: Setup, s: State, a: Answers)
    requires InStep(setup, s) && s.Loop(setup).result.None?
    ensures InStep(setup, Turned(setup, s, a))
  {
    hide Count, Slumber, Attempt, Run, Follows, Ordered, Requested, LastWait;
    var t := Attempt(setup, s.reauthed, a);
    var u := Turned(setup, s, a);
    var loop := u.Loop(setup);
    AttemptIsOrdered(setup, s.reauthed, a);
    NextAttemptFollows(setup, s.trace, t.effects);
    OrderedConcat(setup, s.trace, t.effects);
    LoopTurned(setup, s.rounds, Round(t.outcome, a.took, a.jitter, a.sleep));
    assert (s.trace + t.effects)[|s.trace + t.effects| - 1] == t.effects[|t.effects| - 1];
    WaitAtTheEnd(setup, s.trace + t.effects, t.outcome, loop);
    assert u.trace == s.trace + t.effects + LastWait(loop);
    WaitCounts(loop);
    SlumberConcat(s.trace, t.effects);
    SlumberConcat(s.trace + t.effects, LastWait(loop));
  }

  // What a turn adds to the loop.
  lemma LoopTurned(setup: Setup, rounds: seq<Round>, round: Round)
    requires Run(setup.policy, rounds).result.None?
    ensures var before, loop := Run(setup.policy, rounds), Run(setup.policy, rounds + [round]);
      && |loop.passes| == |before.passes| + 1
      && var wait := loop.passes[|loop.passes| - 1].wait;
      && (wait.Some? ==> Retried(round.outcome))
      && (loop.result.None? ==> wait.Some?)
      && (loop.result.Some? ==> if wait.Some? then loop.result.value.Raised? else loop.result.value == round.outcome)
      && Requested(loop.passes) == Requested(before.passes) + wait.GetOr(0.0)
  {
    assert (rounds + [round])[..|rounds|] == rounds;
    var before, loop := Run(setup.policy, rounds), Run(setup.policy, rounds + [round]);
    assert loop == Turn(setup.policy, before, round);
    assert loop.passes[..|loop.passes| - 1] == before.passes;
  }

  // The pause after an attempt, if there is one.
  lemma WaitAtTheEnd(setup: Setup, t: seq<Effect>, outcome: Result<Outcome, Error>, loop: Loop)
    requires t != [] && Ordered(setup, t) && Closes(t[|t| - 1], outcome) && !t[|t| - 1].Slept?
    requires loop.passes != [] && (loop.passes[|loop.passes| - 1].wait.Some? ==> Retried(outcome))
    ensures var u := t + LastWait(loop); var wait := loop.passes[|loop.passes| - 1].wait;
      && u != [] && Ordered(setup, u)
      && u[|u| - 1] == if wait.Some? then Slept(wait.value) else t[|t| - 1]
  {
    hide Ordered, Follows;
    var w := LastWait(loop);
    if w != [] {
      SleepFollows(setup, t[|t| - 1], outcome, w[0]);
    }
    OrderedConcat(setup, t, w);
  }

  lemma NextAttemptFollows(setup: Setup, t: seq<Effect>, u: seq<Effect>)
    requires Ordered(setup, u) && u != []
    requires t != [] ==> t[|t| - 1].Slept?
    ensures t != [] ==> Follows(setup, t[|t| - 1], u[0])
    ensures forall i :: 0 <= i < |u| - 1 ==> Follows(setup, u[i], u[i + 1])
  {
  }

  lemma SleepFollows(setup: Setup, last: Effect, outcome: Result<Outcome, Error>, sleep: Effect)
    requires Closes(last, outcome) && Retried(outcome) && sleep.Slept?
    ensures Follows(setup, last, sleep)
  {
  }

  lemma {:induction false} AfterInvariant(setup: Setup, answers: seq<Answers>)
    ensures var s := After(setup, answers); InStep(setup, s) && Tallied(s)
  {
    hide InStep, Tallied, Turned;
    if answers == [] {
      AtStart(setup);
    } else {
      AfterInvariant(setup, answers[..|answers| - 1]);
      var s := After(setup, answers[..|answers| - 1]);
      if s.Loop(setup).result.None? {
        TurnedIsInStep(setup, s, answers[|answers| - 1]);
        TurnedIsTallied(setup, s, answers[|answers| - 1]);
      }
    }
  }

  lemma AtStart(setup: Setup)
    ensures InStep(setup, INITIAL) && Tallied(INITIAL)
  {
  }

  // ---- what every export does ----

  // At most one invalidate, and at most one send more than attempts.
  lemma {:induction false} AtMostOneReauthentication(setup: Setup, answers: seq<Answers>)
    ensures var t := After(setup, answers).trace;
      && Count(IsInvalidation, t) <= 1
      && Count(IsSend, t) <= |After(setup, answers).Loop(setup).passes| + Count(IsInvalidation, t)
  {
    hide InStep, After;
    AfterInvariant(setup, answers);
    assert |After(setup, answers).Loop(setup).passes| == |After(setup, answers).rounds| by {
      PassesAreRounds(setup, After(setup, answers));
    }
  }

  lemma PassesAreRounds(setup: Setup, s: State)
    requires InStep(setup, s)
    ensures |s.Loop(setup).passes| == |s.rounds| && Ordered(setup, s.trace)
    ensures s.Loop(setup).result.Some? ==> s.trace != []
    ensures s.trace != [] && s.Loop(setup).result.Some? ==> Closes(s.trace[|s.trace| - 1], s.Loop(setup).result.value)
    ensures s.trace != [] && s.Loop(setup).result.None? ==> s.trace[|s.trace| - 1].Slept?
    ensures Slumber(s.trace) == Requested(s.Loop(setup).passes)
  {
  }

  // Two invalidates are too many.
  lemma {:induction false} InvalidatedOnce(t: seq<Effect>, i: nat, j: nat)
    requires Count(IsInvalidation, t) <= 1 && i < |t| && j < |t| && t[i].Invalidated? && t[j].Invalidated?
    ensures i == j
  {
    if i != j {
      var k := if i < j then j else i;
      var l := if i < j then i else j;
      CountPositive(t[..k], l);
      assert t == t[..k] + t[k..];
      CountConcat(IsInvalidation, t[..k], t[k..]);
      CountPositive(t[k..], 0);
    }
  }

  lemma {:induction false} CountPositive(t: seq<Effect>, i: nat)
    requires i < |t| && t[i].Invalidated?
    ensures Count(IsInvalidation, t) >= 1
  {
    if i < |t| - 1 {
      CountPositive(t[..|t| - 1], i);
    }
  }

  // Every send but the last effect of the export was answered Retryable, or
  // refused for its credentials and followed by the one invalidate.
  lemma {:induction false} OnlyTransientSendsAreRepeated(setup: Setup, answers: seq<Answers>, i: nat, j: nat)
    requires var t := After(setup, answers).trace;
      i < j < |t| && t[i].Sent?
    ensures var t := After(setup, answers).trace;
      && t[i].reply.Ok?
      && (t[i].reply.value.Retryable?
          || (IsCredentialRejection(t[i].reply.value) && t[i + 1].Invalidated?
              && forall k :: 0 <= k < |t| && t[k].Invalidated? ==> k == i + 1))
  {
    hide After, InStep, Run, Tallied;
    AfterInvariant(setup, answers);
    var s := After(setup, answers);
    PassesAreRounds(setup, s);
    AtMostOneReauthentication(setup, answers);
    assert Follows(setup, s.trace[i], s.trace[i + 1]);
    forall k | 0 <= k < |s.trace| && s.trace[k].Invalidated? && s.trace[i + 1].Invalidated? ensures k == i + 1 {
      InvalidatedOnce(s.trace, k, i + 1);
    }
  }

  // Credentials refused again after the re-authentication end the export: that
  // send is its last effect, and the caller sees a permanent error.
  lemma {:induction false} SecondRejectionIsPermanent(setup: Setup, answers: seq<Answers>, i: nat, j: nat)
    requires var t := After(setup, answers).trace;
      i < j < |t| && t[i].Invalidated? && t[j].Sent? && t[j].reply.Ok? && IsCredentialRejection(t[j].reply.value)
    ensures var s := After(setup, answers);
      && j == |s.trace| - 1
      && s.Loop(setup).result == Some(s.trace[j].reply)
      && Conclude(s.Loop(setup).result.value) == Raised(PermanentError)
  {
    hide After, InStep, Run, Tallied;
    AfterInvariant(setup, answers);
    var s := After(setup, answers);
    PassesAreRounds(setup, s);
    if j < |s.trace| - 1 {
      OnlyTransientSendsAreRepeated(setup, answers, j, j + 1);
      assert false;
    }
  }

  // Every send carries the export's payload and exactly the configured headers,
  // overridden by the ones the provider gave directly before it; so no send
  // after an invalidate uses headers from before it.
  lemma {:induction false} SendsCarryTheLatestHeaders(setup: Setup, answers: seq<Answers>, i: nat)
    requires i < |After(setup, answers).trace| && After(setup, answers).trace[i].Sent?
    ensures var t := After(setup, answers).trace;
      && t[i].payload == setup.payload
      && (if setup.hasProvider then
            && i > 0 && t[i - 1].Asked? && t[i - 1].provided.Ok?
            && (forall k :: k in t[i].headers <==> k in setup.configured || k in t[i - 1].provided.value)
            && (forall k :: k in t[i - 1].provided.value ==> t[i].headers[k] == t[i - 1].provided.value[k])
            && (forall k :: k in setup.configured && k !in t[i - 1].provided.value ==>
                  t[i].headers[k] == setup.configured[k])
            && (forall j :: 0 <= j < i && t[j].Invalidated? ==> j < i - 1)
          else
            t[i].headers == setup.configured)
  {
    hide After, InStep, Run, Tallied;
    AfterInvariant(setup, answers);
    var s := After(setup, answers);
    PassesAreRounds(setup, s);
    if i == 0 {
      assert Opens(setup, s.trace[0]);
    } else {
      assert Follows(setup, s.trace[i - 1], s.trace[i]);
      if setup.hasProvider {
        assert s.trace[i].headers == setup.configured + s.trace[i - 1].provided.value;
      }
    }
  }

  // The collector refused the credentials.
  predicate Refused(e: Effect) {
    e.Sent? && (e.reply == Ok(Permanent(Some(401))) || e.reply == Ok(Permanent(Some(403))))
  }

  // A transient failure of the provider is a Retryable, any other is raised.
  function Unresolved(error: Error): Result<Outcome, Error> {
    if error == TransportError then Ok(Retryable(None)) else Raised(error)
  }

  // An attempt, case by case: what it does, in order, and how it ends.
  lemma AttemptDoes(setup: Setup, reauthed: bool, a: Answers)
    ensures var t := Attempt(setup, reauthed, a);
      if !setup.hasProvider then
        t == Tried(a.firstSend, reauthed, [Sent(setup.payload, setup.configured, a.firstSend)])
      else if a.first.Raised? then
        t == Tried(Unresolved(a.first.error), reauthed, [Asked(a.first)])
      else
        var sent := Sent(setup.payload, setup.configured + a.first.value, a.firstSend);
        if reauthed || !Refused(sent) then
          t == Tried(a.firstSend, reauthed, [Asked(a.first), sent])
        else if a.invalidation.Raised? then
          t == Tried(Raised(a.invalidation.error), true, [Asked(a.first), sent, Invalidated])
        else if a.second.Raised? then
          t == Tried(Unresolved(a.second.error), true, [Asked(a.first), sent, Invalidated, Asked(a.second)])
        else
          var again := Sent(setup.payload, setup.configured + a.second.value, a.secondSend);
          t == Tried(a.secondSend, true, [Asked(a.first), sent, Invalidated, Asked(a.second), again])
  {
  }

  // The first refusal in a trace is followed by an invalidate.
  predicate Eager(t: seq<Effect>) {
    forall i :: 0 <= i < |t| && Refused(t[i]) && Invalidated !in t[..i] ==> i + 1 < |t| && t[i + 1].Invalidated?
  }

  lemma AttemptIsEager(setup: Setup, a: Answers)
    requires setup.hasProvider
    ensures Eager(Attempt(setup, false, a).effects)
  {
    hide Attempt;
    AttemptDoes(setup, false, a);
    var t := Attempt(setup, false, a).effects;
    assert |t| > 2 ==> t[2] == Invalidated && forall i :: 2 < i < |t| ==> t[..i][2] == Invalidated;
  }

  lemma EagerConcat(t: seq<Effect>, u: seq<Effect>, w: seq<Effect>)
    requires Eager(t) && (t == [] || !Refused(t[|t| - 1])) && (Eager(u) || Invalidated in t)
    requires forall e :: e in w ==> e.Slept?
    ensures Eager(t + u + w)
  {
    var v := t + u + w;
    forall i | |t| <= i <= |v| && Invalidated in t ensures Invalidated in v[..i] {
      StaysIn(t, u + w, i);
      assert v == t + (u + w);
    }
    assert forall k :: |t| + |u| <= k < |v| ==> v[k] == w[k - |t| - |u|] && v[k].Slept?;
    forall i | 0 <= i < |v| && Refused(v[i]) && Invalidated !in v[..i]
      ensures i + 1 < |v| && v[i + 1].Invalidated?
    {
      if i < |t| {
        assert v[..i] == t[..i];
      } else {
        assert v[i] == u[i - |t|];
        assert forall e :: e in u[..i - |t|] ==> e in v[..i] by { Within(t, u, w, i); }
      }
    }
  }

  lemma StaysIn(t: seq<Effect>, u: seq<Effect>, i: nat)
    requires |t| <= i <= |t + u| && Invalidated in t
    ensures Invalidated in (t + u)[..i]
  {
    var k :| 0 <= k < |t| && t[k] == Invalidated;
    assert (t + u)[..i][k] == Invalidated;
  }

  lemma Within(t: seq<Effect>, u: seq<Effect>, w: seq<Effect>, i: nat)
    requires |t| <= i <= |t| + |u|
    ensures forall e :: e in u[..i - |t|] ==> e in (t + u + w)[..i]
  {
    assert (t + u + w)[..i] == t + u[..i - |t|];
  }

  lemma {:induction false} NoneMeansZero(t: seq<Effect>)
    requires Invalidated !in t
    ensures Count(IsInvalidation, t) == 0
  {
    if t != [] {
      assert forall e :: e in t[..|t| - 1] ==> e in t;
      assert t[|t| - 1] in t;
      NoneMeansZero(t[..|t| - 1]);
    }
  }

  lemma {:induction false} AfterIsEager(setup: Setup, answers: seq<Answers>)
    requires setup.hasProvider
    ensures Eager(After(setup, answers).trace)
  {
    hide Attempt, Run, InStep, Eager, LastWait;
    if answers == [] {
      assert Eager([]) by { EagerEmpty(); }
    } else {
      var before, a := answers[..|answers| - 1], answers[|answers| - 1];
      AfterIsEager(setup, before);
      AfterInvariant(setup, before);
      var s := After(setup, before);
      PassesAreRounds(setup, s);
      if s.Loop(setup).result.None? {
        var t := Attempt(setup, s.reauthed, a);
        var w := LastWait(Run(setup.policy, s.rounds + [Round(t.outcome, a.took, a.jitter, a.sleep)]));
        if s.reauthed {
          if Invalidated !in s.trace { NoneMeansZero(s.trace); }
        } else {
          AttemptIsEager(setup, a);
        }
        assert forall e :: e in w ==> e.Slept? by { WaitsAreSleeps(); }
        EagerConcat(s.trace, t.effects, w);
      }
    }
  }

  lemma EagerEmpty()
    ensures Eager([])
  {
  }

  lemma WaitsAreSleeps()
    ensures forall loop: Loop, e: Effect :: e in LastWait(loop) ==> e.Slept?
  {
  }

  // With a provider, the first send of an export that is answered 401 or 403 is
  // always followed by an invalidate.
  lemma RefusalIsReauthenticated(setup: Setup, answers: seq<Answers>, i: nat)
    requires setup.hasProvider
    requires var t := After(setup, answers).trace;
      && i < |t| && t[i].Sent?
      && (t[i].reply == Ok(Permanent(Some(401))) || t[i].reply == Ok(Permanent(Some(403))))
      && forall k :: 0 <= k < i ==> !t[k].Invalidated?
    ensures var t := After(setup, answers).trace;
      i + 1 < |t| && t[i + 1].Invalidated?
  {
    hide After;
    AfterIsEager(setup, answers);
    var t := After(setup, answers).trace;
    assert Invalidated !in t[..i];
  }

  // Headers that were provided are always sent: after an invalidate, too.
  lemma ProvidedHeadersAreSent(setup: Setup, answers: seq<Answers>, i: nat)
    requires var t := After(setup, answers).trace;
      i < |t| && t[i].Asked? && t[i].provided.Ok?
    ensures var t := After(setup, answers).trace;
      && i + 1 < |t|
      && t[i + 1].Sent? && t[i + 1].payload == setup.payload
      && t[i + 1].headers == setup.configured + t[i].provided.value
  {
    hide After, InStep, Run, Tallied;
    AfterInvariant(setup, answers);
    var s := After(setup, answers);
    PassesAreRounds(setup, s);
    if i + 1 < |s.trace| { assert Follows(setup, s.trace[i], s.trace[i + 1]); }
  }

  // The re-authentication is no retry: an invalidate comes directly after the
  // refusal and is followed by a new request for headers, without a pause, and
  // a client without a provider does neither.
  lemma {:induction false} ReauthenticationIsImmediate(setup: Setup, answers: seq<Answers>, i: nat)
    requires i < |After(setup, answers).trace| && After(setup, answers).trace[i].Invalidated?
    ensures var t := After(setup, answers).trace;
      && setup.hasProvider
      && i > 1 && t[i - 1].Sent? && t[i - 1].reply.Ok? && IsCredentialRejection(t[i - 1].reply.value)
      && t[i - 2].Asked?
      && (i + 1 < |t| ==> t[i + 1].Asked?)
      && (i + 2 < |t| ==> (t[i + 2].Sent? <==> t[i + 1].provided.Ok?))
  {
    hide After, InStep, Run, Tallied;
    AfterInvariant(setup, answers);
    var s := After(setup, answers);
    PassesAreRounds(setup, s);
    assert i > 0;
    assert Follows(setup, s.trace[i - 1], s.trace[i]);
    SendsCarryTheLatestHeaders(setup, answers, i - 1);
    if i + 1 < |s.trace| { assert Follows(setup, s.trace[i], s.trace[i + 1]); }
    if i + 2 < |s.trace| { assert Follows(setup, s.trace[i + 1], s.trace[i + 2]); }
  }

  // A provider that fails for good ends the export with its own error; one
  // that fails for the moment is retried, after a pause, without a send.
  lemma {:induction false} ProviderFailures(setup: Setup, answers: seq<Answers>, i: nat)
    requires var t := After(setup, answers).trace;
      i < |t| && t[i].Asked? && t[i].provided.Raised?
    ensures var s := After(setup, answers); var t := s.trace;
      if t[i].provided.error == TransportError then
        if i + 1 < |t| then t[i + 1].Slept?
        else s.Loop(setup).result.Some? && Conclude(s.Loop(setup).result.value) == Raised(TransportError)
      else
        && i == |t| - 1
        && s.Loop(setup).result == Some(Raised(t[i].provided.error))
        && Conclude(s.Loop(setup).result.value) == Raised(t[i].provided.error)
  {
    hide After, InStep, Run, Tallied;
    AfterInvariant(setup, answers);
    var s := After(setup, answers);
    PassesAreRounds(setup, s);
    if i + 1 < |s.trace| { assert Follows(setup, s.trace[i], s.trace[i + 1]); }
  }

  // An export succeeds exactly when its last effect is a send that was
  // answered Success or PartialSuccess, and then returns that answer.
  lemma {:induction false} SuccessIsTheLastReply(setup: Setup, answers: seq<Answers>)
    requires After(setup, answers).Loop(setup).result.Some?
    ensures var s := After(setup, answers);
      && s.trace != []
      && var last := s.trace[|s.trace| - 1];
      && (Conclude(s.Loop(setup).result.value).Ok? <==>
            last.Sent? && last.reply.Ok? && (last.reply.value.Success? || last.reply.value.PartialSuccess?))
      && (last.Sent? ==> Conclude(s.Loop(setup).result.value) == Conclude(last.reply))
  {
    hide After, InStep, Run, Tallied;
    AfterInvariant(setup, answers);
    PassesAreRounds(setup, After(setup, answers));
  }

  predicate Steady(a: Answers) {
    a.took >= 0.0 && (a.sleep.Ok? ==> a.sleep.value >= 0.0)
  }

  // The sleeps in the trace sum to at most max_elapsed.
  lemma {:induction false} SleepsFitBudget(setup: Setup, answers: seq<Answers>)
    requires forall a :: a in answers ==> Steady(a)
    ensures Slumber(After(setup, answers).trace) <= Max(0.0, setup.policy.maxElapsed)
  {
    hide InStep, Run, Tallied, Slumber, Requested;
    AfterInvariant(setup, answers);
    PassesAreRounds(setup, After(setup, answers));
    RoundsAreForward(setup, answers);
    DelaysFitBudget(setup.policy, After(setup, answers).rounds);
  }

  lemma {:induction false} RoundsAreForward(setup: Setup, answers: seq<Answers>)
    requires forall a :: a in answers ==> Steady(a)
    ensures forall r :: r in After(setup, answers).rounds ==> Forward(r)
  {
    hide Run, Attempt;
    if answers != [] {
      RoundsAreForward(setup, answers[..|answers| - 1]);
      assert Steady(answers[|answers| - 1]);
    }
  }

  // Answers of a clock on which an attempt takes eps at least.
  predicate Paced(a: Answers, eps: real) {
    Steady(a) && a.took >= eps
  }

  // An export whose attempts each cost eps ends within ceil(max_elapsed / eps)
  // attempts, or after the first.
  lemma {:induction false} ExportsEnd(setup: Setup, answers: seq<Answers>, eps: real)
    requires eps > 0.0 && forall a :: a in answers ==> Paced(a, eps)
    ensures var n := |After(setup, answers).Loop(setup).passes|;
      n <= 1 || n <= Ceil(setup.policy.maxElapsed / eps)
    ensures |answers| > 1 && |answers| > Ceil(setup.policy.maxElapsed / eps) ==>
      After(setup, answers).Loop(setup).result.Some?
  {
    hide Run, Ceil;
    RoundsCost(setup, answers, eps);
    AttemptsAreBounded(setup.policy, After(setup, answers).rounds, eps);
    AnswersUsed(setup, answers);
    AfterInvariant(setup, answers);
  }

  lemma {:induction false} AnswersUsed(setup: Setup, answers: seq<Answers>)
    ensures After(setup, answers).Loop(setup).result.None? ==> |After(setup, answers).rounds| == |answers|
  {
    hide Run, Attempt;
    if answers != [] {
      AnswersUsed(setup, answers[..|answers| - 1]);
    }
  }

  lemma {:induction false} RoundsCost(setup: Setup, answers: seq<Answers>, eps: real)
    requires forall a :: a in answers ==> Paced(a, eps)
    ensures forall r :: r in After(setup, answers).rounds ==> Costs(r, eps)
  {
    hide Run;
    if answers != [] {
      RoundsCost(setup, answers[..|answers| - 1], eps);
      var a := answers[|answers| - 1];
      assert Paced(a, eps);
      RoundCosts(setup, After(setup, answers[..|answers| - 1]).reauthed, a, eps);
    }
  }

  lemma RoundCosts(setup: Setup, reauthed: bool, a: Answers, eps: real)
    requires Paced(a, eps)
    ensures Costs(Round(Attempt(setup, reauthed, a).outcome, a.took, a.jitter, a.sleep), eps)
  {
  }
}
