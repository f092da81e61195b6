// OAuth2ClientCredentials as a transition system: any number of callers, a
// clock that only moves forward, and a token endpoint that answers anything.
// A step is the code between two suspensions; a refresh suspends only while it
// talks to the endpoint, so its commit, the release of the lock and the
// return of the headers are one step. invalidate takes no lock.
module Credentials {
  import opened Wrappers

  // ---- what the token endpoint can answer ----

  datatype ExpiresIn = Absent | Seconds(seconds: real) | Malformed
  datatype Body = NotJson | NotObject | Fields(accessToken: string, expiresIn: ExpiresIn)
  datatype Response = Unreachable | Reply(status: int, body: Body)

  datatype Failure = TransportError | PermanentError

  datatype Grant = Grant(token: string, ttl: real)

  // The stages of _refresh after the request: an absent access token is "".
  function Classify(response: Response, defaultTtl: real): Result<Grant, Failure> {
    match response
    case Unreachable => Raised(TransportError)
    case Reply(status, body) =>
      if status >= 500 then Raised(TransportError)
      else if body.NotJson? then Raised(PermanentError)
      else if status >= 400 then Raised(PermanentError)
      else if body.NotObject? || body.accessToken == "" then Raised(PermanentError)
      else
        match body.expiresIn
        case Malformed => Raised(PermanentError)
        case Absent => Ok(Grant(body.accessToken, NonNegative(defaultTtl)))
        case Seconds(s) => Ok(Grant(body.accessToken, NonNegative(s)))
  }

  // max(ttl, 0.0)
  function NonNegative(r: real): real {
    if r < 0.0 then 0.0 else r
  }

  // ---- state ----

  datatype Config = Config(skew: real, defaultTtl: real)

  // A successful refresh: what it committed, when, how many invalidates came
  // before, and the answer it read.
  datatype Mint = Mint(token: string, at: real, expiresAt: real, invalidatesBefore: nat, answer: Response)

  // `expired` holds the mints whose own lifetime ran out while they were cached.
  datatype State = State(
    token: Option<string>, expiresAt: real, now: real,
    holder: Option<nat>, waiting: set<nat>,
    requests: nat, responses: nat, mints: seq<Mint>, invalidates: nat, expired: set<int>)

  const INITIAL := State(None, 0.0, 0.0, None, {}, 0, 0, [], 0, {})

  datatype Event =
    | Headers(caller: nat)      // headers() is called
    | Acquire(caller: nat)      // a waiting caller gets the lock
    | Respond(response: Response)
    | CancelWait(caller: nat)
    | CancelRefresh
    | Invalidate
    | Tick(elapsed: real)

  // _usable
  predicate Usable(c: Config, s: State) {
    s.token.Some? && s.now < s.expiresAt - c.skew
  }

  predicate Enabled(s: State, e: Event) {
    match e
    case Headers(caller) => caller !in s.waiting && s.holder != Some(caller)
    case Acquire(caller) => caller in s.waiting && s.holder.None?
    case Respond(_) => s.holder.Some?
    case CancelWait(caller) => caller in s.waiting
    case CancelRefresh => s.holder.Some?
    case Invalidate => true
    case Tick(elapsed) => elapsed >= 0.0
  }

  // The clock may have carried the cached token over its limit.
  function NoteExpiry(c: Config, s: State): State {
    if s.token.Some? && !Usable(c, s) then s.(expired := s.expired + {|s.mints| - 1}) else s
  }

  // The last lines of _refresh.
  function Commit(c: Config, s: State, g: Grant, answer: Response): State {
    NoteExpiry(c, s.(token := Some(g.token), expiresAt := s.now + g.ttl,
                     mints := s.mints + [Mint(g.token, s.now, s.now + g.ttl, s.invalidates, answer)]))
  }

  function Answered(c: Config, s: State, response: Response): State {
    var released := s.(holder := None, responses := s.responses + 1);
    match Classify(response, c.defaultTtl)
    case Ok(g) => Commit(c, released, g, response)
    case Raised(_) => released
  }

  function Step(c: Config, s: State, e: Event): State
    requires Enabled(s, e)
  {
    match e
    case Headers(caller) => if Usable(c, s) then s else s.(waiting := s.waiting + {caller})
    case Acquire(caller) =>
      if Usable(c, s) then s.(waiting := s.waiting - {caller})
      else s.(waiting := s.waiting - {caller}, holder := Some(caller), requests := s.requests + 1)
    case Respond(response) => Answered(c, s, response)
    case CancelWait(caller) => s.(waiting := s.waiting - {caller})
    case CancelRefresh => s.(holder := None, responses := s.responses + 1)
    case Invalidate => s.(token := None, invalidates := s.invalidates + 1)
    case Tick(elapsed) => NoteExpiry(c, s.(now := s.now + elapsed))
  }

  // The token a step puts into an authorization header, if the step returns
  // headers at all: the code reads the field as it is after the step, whatever
  // it holds.
  function Returned(c: Config, s: State, e: Event): Option<Option<string>>
    requires Enabled(s, e)
  {
    match e
    case Headers(_) => if Usable(c, s) then Some(Step(c, s, e).token) else None
    case Acquire(_) => if Usable(c, s) then Some(Step(c, s, e).token) else None
    case Respond(response) =>
      if Classify(response, c.defaultTtl).Ok? then Some(Step(c, s, e).token) else None
    case _ => None
  }

  function Next(c: Config, s: State, e: Event): State {
    if Enabled(s, e) then Step(c, s, e) else s
  }

  function Run(c: Config, s: State, events: seq<Event>): State
    decreases |events|
  {
    if events == [] then s else Run(c, Next(c, s, events[0]), events[1..])
  }

  function Reach(c: Config, events: seq<Event>): State {
    Run(c, INITIAL, events)
  }

  // ---- the invariant ----

  // The cache holds what the last mint committed, or nothing since an invalidate.
  predicate CacheOk(c: Config, s: State) {
    var n := |s.mints|;
    && (n == 0 ==> s.token.None? && s.expiresAt == 0.0)
    && (n > 0 ==>
          var m := s.mints[n - 1];
          && s.expiresAt == m.expiresAt && m.at <= m.expiresAt && m.at <= s.now
          && m.invalidatesBefore <= s.invalidates
          && (if s.token.Some? then
                s.token.value == m.token && m.invalidatesBefore == s.invalidates
                && (Usable(c, s) || n - 1 in s.expired)
              else m.invalidatesBefore < s.invalidates))
  }

  // Each mint after the first had a reason of its own: an invalidate since the
  // mint before it, or that mint's expiry.
  predicate Charged(s: State) {
    forall i :: 1 <= i < |s.mints| ==>
      && s.mints[i - 1].invalidatesBefore <= s.mints[i].invalidatesBefore
      && (s.mints[i - 1].invalidatesBefore < s.mints[i].invalidatesBefore || i - 1 in s.expired)
  }

  // The lifetime an answer grants: expires_in, or the default without one, and never less than zero.
  function Lifetime(c: Config, e: ExpiresIn): real
    requires !e.Malformed?
  {
    var ttl := if e.Absent? then c.defaultTtl else e.seconds;
    if ttl < 0.0 then 0.0 else ttl
  }

  // The answer below status 400 that carries this token and this lifetime.
  predicate Granted(c: Config, answer: Response, token: string, lifetime: real) {
    && answer.Reply? && answer.status < 400 && answer.body.Fields? && !answer.body.expiresIn.Malformed?
    && answer.body.accessToken == token && token != ""
    && lifetime == Lifetime(c, answer.body.expiresIn)
  }

  predicate MintsOk(c: Config, s: State) {
    forall i :: 0 <= i < |s.mints| ==>
      Granted(c, s.mints[i].answer, s.mints[i].token, s.mints[i].expiresAt - s.mints[i].at)
  }

  // Which answers raise which error, and what the others grant.
  lemma ClassifyTable(c: Config, answer: Response)
    ensures var r := Classify(answer, c.defaultTtl);
      && (r == Raised(TransportError) <==> answer.Unreachable? || answer.status >= 500)
      && (r.Ok? <==>
            answer.Reply? && answer.status < 400 && answer.body.Fields? && answer.body.accessToken != ""
            && !answer.body.expiresIn.Malformed?)
      && (r.Ok? ==> Granted(c, answer, r.value.token, r.value.ttl) && r.value.ttl >= 0.0)
  {
  }

  predicate LockOk(c: Config, s: State) {
    && (s.holder.Some? ==> !Usable(c, s) && s.holder.value !in s.waiting)
    && s.requests == s.responses + (if s.holder.Some? then 1 else 0)
    && (forall m :: m in s.expired ==> 0 <= m < |s.mints|)
    && (|s.mints| - 1 in s.expired ==> s.now >= s.expiresAt - c.skew)
  }

  predicate Inv(c: Config, s: State) {
    CacheOk(c, s) && Charged(s) && LockOk(c, s) && MintsOk(c, s)
  }

  lemma CommitKeepsInv(c: Config, s: State, g: Grant, answer: Response)
    requires Inv(c, s) && s.holder.None? && !Usable(c, s) && Classify(answer, c.defaultTtl) == Ok(g)
    ensures Inv(c, Commit(c, s, g, answer))
  {
    hide Classify;
    ClassifyTable(c, answer);
    var t := Commit(c, s, g, answer);
    var n := |s.mints|;
    assert |t.mints| == n + 1 && forall i :: 0 <= i < n ==> t.mints[i] == s.mints[i];
    assert t.mints[n] == Mint(g.token, s.now, s.now + g.ttl, s.invalidates, answer);
  }

  lemma RespondKeepsInv(c: Config, s: State, response: Response)
    requires Inv(c, s) && s.holder.Some?
    ensures Inv(c, Answered(c, s, response))
  {
    hide Commit;
    var released := s.(holder := None, responses := s.responses + 1);
    var r := Classify(response, c.defaultTtl);
    if r.Ok? { CommitKeepsInv(c, released, r.value, response); }
  }

  lemma StepKeepsInv(c: Config, s: State, e: Event)
    requires Inv(c, s) && Enabled(s, e)
    ensures Inv(c, Step(c, s, e))
  {
    hide Answered;
    match e
    case Respond(response) => RespondKeepsInv(c, s, response);
    case _ =>
  }

  lemma {:induction false} RunKeepsInv(c: Config, s: State, events: seq<Event>)
    requires Inv(c, s)
    ensures Inv(c, Run(c, s, events))
    decreases |events|
  {
    if events != [] {
      if Enabled(s, events[0]) { StepKeepsInv(c, s, events[0]); }
      RunKeepsInv(c, Next(c, s, events[0]), events[1..]);
    }
  }

  lemma ReachInv(c: Config, events: seq<Event>)
    ensures Inv(c, Reach(c, events))
  {
    RunKeepsInv(c, INITIAL, events);
  }

  // ---- what holds over whole runs ----

  // At most one request to the token endpoint is unanswered at any time, and
  // it belongs to the holder of the lock, who has no usable token.
  lemma SingleFlight(c: Config, events: seq<Event>)
    ensures var s := Reach(c, events);
      s.responses <= s.requests <= s.responses + 1
      && (s.requests == s.responses + 1 <==> s.holder.Some?)
      && (s.holder.Some? ==> !Usable(c, s))
  {
    ReachInv(c, events);
  }

  // One for a token that can still be used, as it is at that moment.
  function Live(c: Config, s: State): nat {
    if Usable(c, s) then 1 else 0
  }

  // Whether an event throws away a token that could still be used.
  predicate Discarding(c: Config, s: State, e: Event) {
    e.Invalidate? && Usable(c, s)
  }

  // How many events of a run do.
  function Discards(c: Config, s: State, events: seq<Event>): nat {
    if events == [] then 0
    else
      var before := events[..|events| - 1];
      Discards(c, s, before) + (if Discarding(c, Run(c, s, before), events[|events| - 1]) then 1 else 0)
  }

  // What one step does to the mints and to the token they leave.
  lemma StepBalance(c: Config, s: State, e: Event)
    requires Inv(c, s)
    ensures var t := Next(c, s, e);
      |t.mints| + |s.expired| + Live(c, s)
      == |s.mints| + |t.expired| + Live(c, t) + (if Discarding(c, s, e) then 1 else 0)
  {
    hide Answered;
    if Enabled(s, e) {
      match e
      case Respond(response) => RespondBalance(c, s, response);
      case Tick(elapsed) => TickBalance(c, s, elapsed);
      case _ =>
    }
  }

  lemma RespondBalance(c: Config, s: State, response: Response)
    requires Inv(c, s) && s.holder.Some?
    ensures var t := Answered(c, s, response);
      |t.mints| + |s.expired| + Live(c, s) == |s.mints| + |t.expired| + Live(c, t)
  {
    hide Classify, Charged;
    var t, n := Answered(c, s, response), |s.mints|;
    if Classify(response, c.defaultTtl).Ok? && !Usable(c, t) {
      assert t.expired == s.expired + {n} && n !in s.expired;
    }
  }

  lemma TickBalance(c: Config, s: State, elapsed: real)
    requires Inv(c, s) && elapsed >= 0.0
    ensures var t := Step(c, s, Tick(elapsed));
      |t.mints| + |s.expired| + Live(c, s) == |s.mints| + |t.expired| + Live(c, t)
  {
    hide Charged, Classify;
    var t, last := Step(c, s, Tick(elapsed)), |s.mints| - 1;
    if s.token.Some? && !Usable(c, t) { assert t.expired == s.expired + {last}; }
    if last in s.expired { assert t.expired == s.expired; }
  }

  lemma RunLast(c: Config, s: State, events: seq<Event>)
    requires events != []
    ensures Run(c, s, events) == Next(c, Run(c, s, events[..|events| - 1]), events[|events| - 1])
  {
    var before, last := events[..|events| - 1], events[|events| - 1];
    assert events == before + [last];
    RunAppend(c, s, before, [last]);
    assert [last][1..] == [];
    var t := Run(c, s, before);
    assert Run(c, t, [last]) == Run(c, Next(c, t, last), []);
  }

  // Between two moments of a run, every mint is accounted for: it replaced a
  // token that was discarded while it could be used, or one that expired, or
  // it is the token that can be used now.
  lemma {:induction false} MintBalance(c: Config, s: State, events: seq<Event>)
    requires Inv(c, s)
    ensures var t := Run(c, s, events);
      |t.mints| + |s.expired| + Live(c, s) == |s.mints| + |t.expired| + Live(c, t) + Discards(c, s, events)
  {
    hide Inv, Next, Live, Discarding;
    if events != [] {
      var before := events[..|events| - 1];
      MintBalance(c, s, before);
      RunKeepsInv(c, s, before);
      RunLast(c, s, events);
      StepBalance(c, Run(c, s, before), events[|events| - 1]);
    }
  }

  // From the start: mints are exactly the tokens discarded while they could be
  // used, the tokens that expired, and the one that can be used.
  lemma MintsAreAccountedFor(c: Config, events: seq<Event>)
    ensures var s := Reach(c, events);
      |s.mints| == Discards(c, INITIAL, events) + |s.expired| + Live(c, s)
  {
    assert Inv(c, INITIAL);
    MintBalance(c, INITIAL, events);
  }

  // So mints are paid for: the first is free, and every other one by an
  // invalidate that discards a usable token or by an expiry.
  lemma {:induction false} MintBound(c: Config, events: seq<Event>)
    ensures var s := Reach(c, events);
      |s.mints| <= 1 + Discards(c, INITIAL, events) + |s.expired| <= 1 + s.invalidates + |s.expired|
  {
    hide Run, Inv;
    MintsAreAccountedFor(c, events);
    DiscardsAreInvalidates(c, INITIAL, events);
  }

  lemma {:induction false} DiscardsAreInvalidates(c: Config, s: State, events: seq<Event>)
    ensures s.invalidates + Discards(c, s, events) <= Run(c, s, events).invalidates
  {
    hide Usable, Classify;
    if events != [] {
      DiscardsAreInvalidates(c, s, events[..|events| - 1]);
      RunLast(c, s, events);
    }
  }

  // Each mint after the first had a reason of its own.
  lemma EachMintIsCharged(c: Config, events: seq<Event>)
    ensures Charged(Reach(c, events))
  {
    ReachInv(c, events);
  }

  // ---- a burst of rejections ----

  // How many tokens had been minted before event i of a window.
  function MintsBefore(c: Config, s: State, window: seq<Event>, i: nat): nat
    requires i <= |window|
  {
    |Run(c, s, window[..i]).mints|
  }

  // Some token was committed after one invalidate of the window and before another.
  predicate CommitBetween(c: Config, s: State, window: seq<Event>) {
    exists i, k :: 0 <= i < k < |window| && window[i].Invalidate? && window[k].Invalidate?
                   && MintsBefore(c, s, window, i) < MintsBefore(c, s, window, k)
  }

  // The mints a window costs: those made in it, and the one that the next
  // caller has to make.
  function Costs(c: Config, s: State, window: seq<Event>): int {
    var t := Run(c, s, window);
    |t.mints| - |s.mints| + (if Usable(c, t) then 0 else 1)
  }

  lemma {:induction false} OnlyMore(c: Config, s: State, events: seq<Event>)
    ensures s.expired <= Run(c, s, events).expired && |s.mints| <= |Run(c, s, events).mints|
    decreases |events|
  {
    hide Usable, Classify;
    if events != [] {
      OnlyMore(c, Next(c, s, events[0]), events[1..]);
    }
  }

  // The balance at each moment of a window that sees no expiry.
  lemma WindowBalance(c: Config, s: State, window: seq<Event>, i: nat)
    requires Inv(c, s) && Run(c, s, window).expired == s.expired && i <= |window|
    ensures MintsBefore(c, s, window, i) + Live(c, s)
         == |s.mints| + Discards(c, s, window[..i]) + Live(c, Run(c, s, window[..i]))
    ensures MintsBefore(c, s, window, i) >= |s.mints|
  {
    hide Inv, Run, Discards;
    assert window == window[..i] + window[i..];
    RunAppend(c, s, window[..i], window[i..]);
    OnlyMore(c, s, window[..i]);
    OnlyMore(c, Run(c, s, window[..i]), window[i..]);
    assert Run(c, s, window[..i]).expired == s.expired;
    MintBalance(c, s, window[..i]);
  }

  lemma DiscardsStep(c: Config, s: State, window: seq<Event>, i: nat)
    requires i < |window|
    ensures Discards(c, s, window[..i + 1])
         == Discards(c, s, window[..i]) + (if Discarding(c, Run(c, s, window[..i]), window[i]) then 1 else 0)
  {
    assert window[..i + 1][..i] == window[..i];
  }

  lemma {:induction false} DiscardsGrow(c: Config, s: State, window: seq<Event>, i: nat, j: nat)
    requires i <= j <= |window|
    ensures Discards(c, s, window[..i]) <= Discards(c, s, window[..j])
    decreases j - i
  {
    if i < j {
      DiscardsGrow(c, s, window, i, j - 1);
      DiscardsStep(c, s, window, j - 1);
    }
  }

  // The discard that comes after n others.
  lemma {:induction false} NthDiscard(c: Config, s: State, window: seq<Event>, n: nat) returns (i: nat)
    requires Discards(c, s, window) > n
    ensures i < |window| && Discards(c, s, window[..i]) == n
    ensures Discarding(c, Run(c, s, window[..i]), window[i])
  {
    var before := window[..|window| - 1];
    if Discards(c, s, before) > n {
      i := NthDiscard(c, s, before, n);
      assert before[..i] == window[..i];
    } else {
      i := |before|;
    }
  }

  // Rejections that come while a token is usable, in any number and with any
  // other events between them, collapse into at most one mint exactly when no
  // token is committed between two of them: a late rejection of the old token
  // discards the new one. No token expires in the window.
  lemma BurstCollapses(c: Config, events: seq<Event>, window: seq<Event>)
    requires Usable(c, Reach(c, events))
    requires Run(c, Reach(c, events), window).expired == Reach(c, events).expired
    ensures var s := Reach(c, events);
      && Costs(c, s, window) == Discards(c, s, window)
      && (Costs(c, s, window) <= 1 <==> !CommitBetween(c, s, window))
  {
    hide Run, Discards, Inv, Usable;
    var s := Reach(c, events);
    ReachInv(c, events);
    MintBalance(c, s, window);
    if CommitBetween(c, s, window) {
      var i, k :| 0 <= i < k < |window| && window[i].Invalidate? && window[k].Invalidate?
                  && MintsBefore(c, s, window, i) < MintsBefore(c, s, window, k);
      WindowBalance(c, s, window, i);
      WindowBalance(c, s, window, k);
      DiscardsStep(c, s, window, k);
      DiscardsGrow(c, s, window, k + 1, |window|);
      assert window[..|window|] == window;
    }
    if Discards(c, s, window) > 1 {
      var i := NthDiscard(c, s, window, 0);
      var k := NthDiscard(c, s, window, 1);
      if k <= i { DiscardsGrow(c, s, window, k, i); }
      WindowBalance(c, s, window, i);
      WindowBalance(c, s, window, k);
    }
  }

  // A burst of calls that find no usable token is one mint as well, exactly
  // when no invalidate comes after a token has been committed.
  lemma ColdBurstCollapses(c: Config, events: seq<Event>, window: seq<Event>)
    requires !Usable(c, Reach(c, events))
    requires Run(c, Reach(c, events), window).expired == Reach(c, events).expired
    ensures var s := Reach(c, events);
      && Costs(c, s, window) == Discards(c, s, window) + 1
      && (Costs(c, s, window) <= 1 <==>
            forall k :: 0 <= k < |window| && window[k].Invalidate? ==> MintsBefore(c, s, window, k) == |s.mints|)
  {
    hide Run, Discards, Inv, Usable;
    var s := Reach(c, events);
    ReachInv(c, events);
    MintBalance(c, s, window);
    forall k | 0 <= k < |window| && window[k].Invalidate?
      ensures MintsBefore(c, s, window, k) >= |s.mints|
      ensures MintsBefore(c, s, window, k) > |s.mints| ==> Discards(c, s, window) > 0
    {
      WindowBalance(c, s, window, k);
      DiscardsStep(c, s, window, k);
      DiscardsGrow(c, s, window, k + 1, |window|);
      assert window[..|window|] == window;
    }
    if Discards(c, s, window) > 0 {
      var k := NthDiscard(c, s, window, 0);
      WindowBalance(c, s, window, k);
    }
  }

  // Every header map carries a token: the one committed last, after the most
  // recent invalidate. From the cache it is returned only while its lifetime,
  // as its answer gave it, has more than the skew left; and a token may also be
  // returned in the step that committed it.
  lemma HeadersCarryFreshToken(c: Config, events: seq<Event>, e: Event)
    requires Enabled(Reach(c, events), e) && Returned(c, Reach(c, events), e).Some?
    ensures var s := Reach(c, events); var t := Step(c, s, e); var token := Returned(c, s, e).value;
      && token.Some? && |t.mints| > 0
      && var m := t.mints[|t.mints| - 1];
      && token.value == m.token && m.invalidatesBefore == t.invalidates
      && Granted(c, m.answer, m.token, m.expiresAt - m.at)
      && (if e.Respond? then |t.mints| == |s.mints| + 1 && m.at == t.now && m.answer == e.response
          else t.mints == s.mints && s.now + c.skew < m.at + Lifetime(c, m.answer.body.expiresIn))
  {
    hide Classify;
    ReachInv(c, events);
    StepKeepsInv(c, Reach(c, events), e);
    var t := Step(c, Reach(c, events), e);
    assert Granted(c, t.mints[|t.mints| - 1].answer, t.mints[|t.mints| - 1].token,
                   t.mints[|t.mints| - 1].expiresAt - t.mints[|t.mints| - 1].at);
  }

  // The cached token has more than the skew left.
  predicate Fresh(c: Config, s: State) {
    s.token.Some? && s.now + c.skew < s.expiresAt
  }

  // headers(): a fresh token is returned at once, and nothing else happens;
  // without one the caller waits for the lock.
  lemma HeadersDo(c: Config, events: seq<Event>, caller: nat)
    requires var s := Reach(c, events); caller !in s.waiting && s.holder != Some(caller)
    ensures var s := Reach(c, events);
      && Enabled(s, Headers(caller))
      && Next(c, s, Headers(caller)) == (if Fresh(c, s) then s else s.(waiting := s.waiting + {caller}))
      && Returned(c, s, Headers(caller)) == (if Fresh(c, s) then Some(s.token) else None)
  {
  }

  // With the lock: a token that has become fresh meanwhile is returned, and no
  // request is made; without one this caller makes one.
  lemma AcquireDoes(c: Config, events: seq<Event>, caller: nat)
    requires var s := Reach(c, events); caller in s.waiting && s.holder.None?
    ensures var s := Reach(c, events); var left := s.(waiting := s.waiting - {caller});
      && Enabled(s, Acquire(caller))
      && Next(c, s, Acquire(caller))
         == (if Fresh(c, s) then left else left.(holder := Some(caller), requests := s.requests + 1))
      && Returned(c, s, Acquire(caller)) == (if Fresh(c, s) then Some(s.token) else None)
  {
  }

  // The endpoint answers: the lock is free. A good answer is committed as the
  // cached token with its lifetime from now, and its token returned; any other
  // changes neither and returns nothing.
  lemma RespondDoes(c: Config, events: seq<Event>, answer: Response)
    requires Reach(c, events).holder.Some?
    ensures var s := Reach(c, events); var t := Next(c, s, Respond(answer));
      && t.holder.None? && t.waiting == s.waiting && t.now == s.now && t.invalidates == s.invalidates
      && t.requests == s.requests && t.responses == s.responses + 1
      && (if exists token, lifetime :: Granted(c, answer, token, lifetime) then
            && Granted(c, answer, answer.body.accessToken, t.expiresAt - s.now)
            && t.token == Some(answer.body.accessToken) && |t.mints| == |s.mints| + 1
            && Returned(c, s, Respond(answer)) == Some(t.token)
          else
            && t.token == s.token && t.expiresAt == s.expiresAt && t.mints == s.mints
            && Returned(c, s, Respond(answer)) == None)
  {
    hide Classify;
    ClassifyTable(c, answer);
    var r := Classify(answer, c.defaultTtl);
    if r.Ok? {
      assert Granted(c, answer, r.value.token, r.value.ttl);
    }
  }

  // The other steps: giving up a wait or a request changes nothing else, and an
  // invalidate clears the token whatever is going on.
  lemma OtherStepsDo(c: Config, events: seq<Event>, caller: nat, elapsed: real)
    ensures var s := Reach(c, events);
      && (caller in s.waiting ==>
            Next(c, s, CancelWait(caller)) == s.(waiting := s.waiting - {caller}))
      && (s.holder.Some? ==>
            Next(c, s, CancelRefresh) == s.(holder := None, responses := s.responses + 1))
      && Next(c, s, Invalidate) == s.(token := None, invalidates := s.invalidates + 1)
      && (elapsed >= 0.0 ==>
            var t := Next(c, s, Tick(elapsed));
            && t == s.(now := s.now + elapsed, expired := t.expired))
  {
  }

  // Every mint comes from an answer of the run.
  lemma {:induction false} MintsWereAnswered(c: Config, s: State, events: seq<Event>, i: nat)
    requires i < |Run(c, s, events).mints|
    ensures i < |s.mints| || Respond(Run(c, s, events).mints[i].answer) in events
  {
    hide Classify, Usable;
    if events != [] {
      var before, last := events[..|events| - 1], events[|events| - 1];
      RunLast(c, s, events);
      assert events == before + [last];
      if i < |Run(c, s, before).mints| {
        MintsWereAnswered(c, s, before, i);
        StepKeepsMints(c, Run(c, s, before), last);
      }
    }
  }

  lemma StepKeepsMints(c: Config, s: State, e: Event)
    ensures s.mints <= Next(c, s, e).mints
  {
    hide Classify, Usable;
  }

  // A cached token and its expiry come from one mint, with a lifetime of at least zero.
  lemma TokenAndExpiryBelongTogether(c: Config, events: seq<Event>)
    requires Reach(c, events).token.Some?
    ensures var s := Reach(c, events);
      && |s.mints| > 0
      && var m := s.mints[|s.mints| - 1];
         s.token.value == m.token && s.expiresAt == m.expiresAt && m.at <= m.expiresAt
  {
    ReachInv(c, events);
  }

  // Events of a window in which the holder's refresh is still running.
  predicate RefreshRuns(events: seq<Event>) {
    forall e :: e in events ==> !e.Respond? && !e.CancelRefresh?
  }

  // While a refresh runs, nobody else can mint: only an invalidate touches the token.
  lemma {:induction false} NothingChangesDuringRefresh(c: Config, s: State, events: seq<Event>)
    requires s.holder.Some? && RefreshRuns(events)
    ensures var t := Run(c, s, events);
      && t.holder == s.holder && t.mints == s.mints && t.expiresAt == s.expiresAt
      && t.token == (if Invalidate in events then None else s.token)
    decreases |events|
  {
    if events != [] {
      assert events == [events[0]] + events[1..];
      assert RefreshRuns(events[1..]);
      NothingChangesDuringRefresh(c, Next(c, s, events[0]), events[1..]);
    }
  }

  // A refresh that fails, at any stage or by cancellation, leaves token and
  // expiry as it found them when it took the lock, apart from invalidates that
  // came meanwhile.
  lemma FailedRefreshLeavesCache(c: Config, s: State, caller: nat, events: seq<Event>, last: Event)
    requires Enabled(s, Acquire(caller)) && !Usable(c, s) && RefreshRuns(events)
    requires last.CancelRefresh? || (last.Respond? && Classify(last.response, c.defaultTtl).Raised?)
    ensures var started := Step(c, s, Acquire(caller));
      var t := Next(c, Run(c, started, events), last);
      && t.holder.None? && t.mints == s.mints && t.expiresAt == s.expiresAt
      && t.token == (if Invalidate in events then None else s.token)
  {
    NothingChangesDuringRefresh(c, Step(c, s, Acquire(caller)), events);
  }

  lemma {:induction false} RunAppend(c: Config, s: State, first: seq<Event>, more: seq<Event>)
    ensures Run(c, s, first + more) == Run(c, Run(c, s, first), more)
    decreases |first|
  {
    if first == [] {
      assert first + more == more;
    } else {
      assert (first + more)[1..] == first[1..] + more;
      RunAppend(c, Next(c, s, first[0]), first[1..], more);
    }
  }

  // n late rejections, each of them after the token was minted again.
  function LateRejections(n: nat, ok: Response): seq<Event> {
    if n == 0 then [Headers(0), Acquire(0), Respond(ok)]
    else LateRejections(n - 1, ok) + [Invalidate, Headers(0), Acquire(0), Respond(ok)]
  }

  // The bound is reached: invalidate discards whatever is cached, so rejections
  // that arrive one after the other cost one mint each, not one for them all.
  lemma {:induction false} MintBoundIsReached(c: Config, n: nat, ok: Response)
    requires Classify(ok, c.defaultTtl).Ok? && Classify(ok, c.defaultTtl).value.ttl > c.skew
    ensures var s := Reach(c, LateRejections(n, ok));
      s.invalidates == n && s.expired == {} && |s.mints| == 1 + n && s.holder.None? && s.waiting == {}
  {
    if n == 0 {
      MintRound(c, INITIAL, ok);
    } else {
      MintBoundIsReached(c, n - 1, ok);
      var before := Reach(c, LateRejections(n - 1, ok));
      RunAppend(c, INITIAL, LateRejections(n - 1, ok), [Invalidate, Headers(0), Acquire(0), Respond(ok)]);
      var cleared := Next(c, before, Invalidate);
      assert [Invalidate, Headers(0), Acquire(0), Respond(ok)][1..] == [Headers(0), Acquire(0), Respond(ok)];
      MintRound(c, cleared, ok);
    }
  }

  // One caller that finds no token mints one.
  lemma MintRound(c: Config, s: State, ok: Response)
    requires s.token.None? && s.holder.None? && s.waiting == {}
    requires Classify(ok, c.defaultTtl).Ok? && Classify(ok, c.defaultTtl).value.ttl > c.skew
    ensures var t := Run(c, s, [Headers(0), Acquire(0), Respond(ok)]);
      t.invalidates == s.invalidates && t.expired == s.expired && |t.mints| == |s.mints| + 1
      && t.holder.None? && t.waiting == {}
  {
    var s1 := Next(c, s, Headers(0));
    var s2 := Next(c, s1, Acquire(0));
    var s3 := Next(c, s2, Respond(ok));
    assert s1.waiting == {0} && s2.waiting == {} && s2.holder == Some(0);
    assert [Headers(0), Acquire(0), Respond(ok)][1..] == [Acquire(0), Respond(ok)];
    assert [Acquire(0), Respond(ok)][1..] == [Respond(ok)];
    assert [Respond(ok)][1..] == [];
    assert Run(c, s, [Headers(0), Acquire(0), Respond(ok)]) == Run(c, s1, [Acquire(0), Respond(ok)]);
    assert Run(c, s1, [Acquire(0), Respond(ok)]) == Run(c, s2, [Respond(ok)]);
    assert Run(c, s2, [Respond(ok)]) == Run(c, s3, []);
  }
}
