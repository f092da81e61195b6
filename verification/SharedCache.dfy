// Any number of exports that share one token cache, as one system: each export
// does what _export does, in any interleaving with the others, with other
// callers of the provider, with the token endpoint and with the clock. The
// headers an export is given are the ones the cache returns, and nothing but
// an export invalidates.
module SharedCache {
  import opened Wrappers
  import C = Credentials
  import R = Retry
  import X = Export
  import TokenCache

  // What OAuth2ClientCredentials.headers returns.
  function Authorization(token: Option<string>): X.Headers {
    map["authorization" := TokenCache.Bearer(token)]
  }

  function ErrorOf(f: C.Failure): R.Error {
    match f
    case TransportError => R.TransportError
    case PermanentError => R.PermanentError
  }

  function Granted(caller: nat, returned: Option<Option<string>>): Option<(nat, Result<X.Headers, R.Error>)> {
    if returned.Some? then Some((caller, Ok(Authorization(returned.value)))) else None
  }

  // Whose call of headers an event of the cache ends, and how.
  function Answer(c: C.Config, s: C.State, e: C.Event): Option<(nat, Result<X.Headers, R.Error>)>
    requires C.Enabled(s, e)
  {
    match e
    case Headers(caller) => Granted(caller, C.Returned(c, s, e))
    case Acquire(caller) => Granted(caller, C.Returned(c, s, e))
    case Respond(response) =>
      if C.Classify(response, c.defaultTtl).Ok? then Granted(s.holder.value, C.Returned(c, s, e))
      else Some((s.holder.value, Raised(ErrorOf(C.Classify(response, c.defaultTtl).error))))
    case CancelWait(caller) => Some((caller, Raised(R.OtherError)))
    case CancelRefresh => Some((s.holder.value, Raised(R.OtherError)))
    case _ => None
  }

  // What an export has done, and how many invalidates there had been after each effect.
  datatype Track = Track(trace: seq<X.Effect>, stamps: seq<nat>)

  // The events of the cache so far, its state, and the exports.
  datatype State = State(events: seq<C.Event>, cache: C.State, tracks: seq<Track>)

  datatype Event =
    | Cache(event: C.Event)
    | Invalidates(exporter: nat)
    | Sends(exporter: nat, payload: X.Payload, headers: X.Headers, reply: Result<R.Outcome, R.Error>)
    | Sleeps(exporter: nat, delay: real)

  function Did(s: State, j: nat, e: X.Effect): State
    requires j < |s.tracks|
  {
    s.(tracks := s.tracks[j := Track(s.tracks[j].trace + [e], s.tracks[j].stamps + [s.cache.invalidates])])
  }

  function CacheMoves(c: C.Config, s: State, e: C.Event): State
    requires C.Enabled(s.cache, e)
  {
    s.(events := s.events + [e], cache := C.Step(c, s.cache, e))
  }

  // What an event does, whether or not an export would do it.
  function Moves(c: C.Config, s: State, e: Event): State {
    match e
    case Cache(event) =>
      if !C.Enabled(s.cache, event) then s
      else
        var t, answer := CacheMoves(c, s, event), Answer(c, s.cache, event);
        // Callers that are no exports are other users of the provider.
        if answer.Some? && answer.value.0 < |s.tracks| then Did(t, answer.value.0, X.Asked(answer.value.1)) else t
    case Invalidates(j) => if j < |s.tracks| then Did(CacheMoves(c, s, C.Invalidate), j, X.Invalidated) else s
    case Sends(j, payload, headers, reply) =>
      if j < |s.tracks| then Did(s, j, X.Sent(payload, headers, reply)) else s
    case Sleeps(j, delay) => if j < |s.tracks| then Did(s, j, X.Slept(delay)) else s
  }

  // The trace is that of an export at some moment.
  ghost predicate IsExport(setup: X.Setup, t: seq<X.Effect>) {
    exists answers :: t <= X.After(setup, answers).trace
  }

  ghost predicate AreExports(setups: seq<X.Setup>, tracks: seq<Track>) {
    |tracks| == |setups| && forall j :: 0 <= j < |setups| ==> IsExport(setups[j], tracks[j].trace)
  }

  // An event happens only when each export still does what _export does; and
  // the cache is invalidated by exports alone.
  ghost predicate Enabled(c: C.Config, setups: seq<X.Setup>, s: State, e: Event) {
    e != Cache(C.Invalidate) && AreExports(setups, Moves(c, s, e).tracks)
  }

  ghost function Next(c: C.Config, setups: seq<X.Setup>, s: State, e: Event): State {
    if Enabled(c, setups, s, e) then Moves(c, s, e) else s
  }

  ghost function Run(c: C.Config, setups: seq<X.Setup>, s: State, events: seq<Event>): State
    decreases |events|
  {
    if events == [] then s else Run(c, setups, Next(c, setups, s, events[0]), events[1..])
  }

  function Start(n: nat): State {
    State([], C.INITIAL, seq(n, i => Track([], [])))
  }

  ghost function Reach(c: C.Config, setups: seq<X.Setup>, events: seq<Event>): State {
    Run(c, setups, Start(|setups|), events)
  }

  // ---- the invariant ----

  // A token the cache held when this many invalidates had come.
  predicate Current(cache: C.State, h: X.Headers, stamp: nat) {
    exists q :: 0 <= q < |cache.mints| && h == Authorization(Some(cache.mints[q].token))
                && cache.mints[q].invalidatesBefore == stamp
  }

  predicate Provided(e: X.Effect) {
    e.Asked? && e.provided.Ok?
  }

  predicate TrackOk(cache: C.State, t: Track) {
    && |t.stamps| == |t.trace|
    && (forall i :: 0 <= i < |t.stamps| ==> t.stamps[i] <= cache.invalidates)
    && (forall i, k :: 0 <= i < k < |t.stamps| ==> t.stamps[i] <= t.stamps[k])
    && (forall i :: 0 <= i < |t.trace| && Provided(t.trace[i]) ==>
          Current(cache, t.trace[i].provided.value, t.stamps[i]))
  }

  predicate TracksOk(s: State) {
    forall j :: 0 <= j < |s.tracks| ==> TrackOk(s.cache, s.tracks[j])
  }

  function Invalidations(tracks: seq<Track>): nat {
    if tracks == [] then 0
    else Invalidations(tracks[..|tracks| - 1]) + X.Count(X.IsInvalidation, tracks[|tracks| - 1].trace)
  }

  ghost predicate Inv(c: C.Config, setups: seq<X.Setup>, s: State) {
    && s.cache == C.Reach(c, s.events)
    && AreExports(setups, s.tracks)
    && TracksOk(s)
    && s.cache.invalidates == Invalidations(s.tracks)
  }

  // ---- steps of the cache ----

  lemma CacheGrows(c: C.Config, s: C.State, e: C.Event)
    requires C.Enabled(s, e)
    ensures var t := C.Step(c, s, e);
      && s.mints <= t.mints
      && t.invalidates == s.invalidates + (if e.Invalidate? then 1 else 0)
  {
    hide C.Usable, C.Classify;
  }

  lemma CurrentStays(s: C.State, t: C.State, h: X.Headers, stamp: nat)
    requires s.mints <= t.mints && Current(s, h, stamp)
    ensures Current(t, h, stamp)
  {
    var q :| 0 <= q < |s.mints| && h == Authorization(Some(s.mints[q].token))
             && s.mints[q].invalidatesBefore == stamp;
    assert t.mints[q] == s.mints[q];
  }

  lemma TrackStays(s: C.State, t: C.State, track: Track)
    requires s.mints <= t.mints && s.invalidates <= t.invalidates && TrackOk(s, track)
    ensures TrackOk(t, track)
  {
    hide Current;
    forall i | 0 <= i < |track.trace| && Provided(track.trace[i])
      ensures Current(t, track.trace[i].provided.value, track.stamps[i])
    {
      CurrentStays(s, t, track.trace[i].provided.value, track.stamps[i]);
    }
  }

  lemma CacheMovesKeeps(c: C.Config, s: State, e: C.Event)
    requires s.cache == C.Reach(c, s.events) && TracksOk(s) && C.Enabled(s.cache, e)
    ensures var t := CacheMoves(c, s, e);
      && t.cache == C.Reach(c, t.events) && TracksOk(t)
      && t.cache.invalidates == s.cache.invalidates + (if e.Invalidate? then 1 else 0)
  {
    hide TrackOk, C.Step, C.Run, C.Enabled;
    var t := CacheMoves(c, s, e);
    assert t.events[..|s.events|] == s.events;
    C.RunLast(c, C.INITIAL, t.events);
    CacheGrows(c, s.cache, e);
    forall j | 0 <= j < |s.tracks| ensures TrackOk(t.cache, s.tracks[j]) {
      TrackStays(s.cache, t.cache, s.tracks[j]);
    }
  }

  // Headers the cache returns are current at that moment.
  lemma AnswerIsCurrent(c: C.Config, events: seq<C.Event>, e: C.Event)
    requires C.Enabled(C.Reach(c, events), e)
    requires var answer := Answer(c, C.Reach(c, events), e); answer.Some? && answer.value.1.Ok?
    ensures var t := C.Step(c, C.Reach(c, events), e);
      Current(t, Answer(c, C.Reach(c, events), e).value.1.value, t.invalidates)
  {
    hide C.Step, C.Run, C.Usable, C.Classify;
    C.HeadersCarryFreshToken(c, events, e);
  }

  // ---- effects ----

  lemma DidKeeps(s: State, j: nat, e: X.Effect)
    requires j < |s.tracks| && TracksOk(s)
    requires Provided(e) ==> Current(s.cache, e.provided.value, s.cache.invalidates)
    ensures TracksOk(Did(s, j, e))
    ensures Invalidations(Did(s, j, e).tracks)
         == Invalidations(s.tracks) + (if e.Invalidated? then 1 else 0)
  {
    hide Current;
    var t := Did(s, j, e).tracks[j];
    assert t.trace[..|t.trace| - 1] == s.tracks[j].trace;
    InvalidationsUpdate(s.tracks, j, t);
  }

  lemma {:induction false} InvalidationsUpdate(tracks: seq<Track>, j: nat, t: Track)
    requires j < |tracks|
    ensures Invalidations(tracks[j := t])
         == Invalidations(tracks) - X.Count(X.IsInvalidation, tracks[j].trace) + X.Count(X.IsInvalidation, t.trace)
  {
    var n := |tracks| - 1;
    if j == n {
      assert tracks[j := t][..n] == tracks[..n];
    } else {
      assert tracks[j := t][..n] == tracks[..n][j := t];
      InvalidationsUpdate(tracks[..n], j, t);
    }
  }

  lemma NextKeepsInv(c: C.Config, setups: seq<X.Setup>, s: State, e: Event)
    requires Inv(c, setups, s)
    ensures Inv(c, setups, Next(c, setups, s, e))
  {
    hide TracksOk, AreExports, Answer, C.Reach, C.Step;
    if Enabled(c, setups, s, e) {
      match e
      case Cache(event) => CacheKeepsInv(c, s, event);
      case Invalidates(j) =>
        if j < |s.tracks| {
          CacheMovesKeeps(c, s, C.Invalidate);
          DidKeeps(CacheMoves(c, s, C.Invalidate), j, X.Invalidated);
        }
      case Sends(j, payload, headers, reply) =>
        if j < |s.tracks| { DidKeeps(s, j, X.Sent(payload, headers, reply)); }
      case Sleeps(j, delay) => if j < |s.tracks| { DidKeeps(s, j, X.Slept(delay)); }
    }
  }

  lemma CacheKeepsInv(c: C.Config, s: State, e: C.Event)
    requires s.cache == C.Reach(c, s.events) && TracksOk(s) && s.cache.invalidates == Invalidations(s.tracks)
    requires !e.Invalidate?
    ensures var t := Moves(c, s, Cache(e));
      t.cache == C.Reach(c, t.events) && TracksOk(t) && t.cache.invalidates == Invalidations(t.tracks)
  {
    hide TracksOk, Answer, C.Reach, C.Step, Current;
    if C.Enabled(s.cache, e) {
      CacheMovesKeeps(c, s, e);
      var answer := Answer(c, s.cache, e);
      if answer.Some? && answer.value.0 < |s.tracks| {
        if answer.value.1.Ok? { AnswerIsCurrent(c, s.events, e); }
        DidKeeps(CacheMoves(c, s, e), answer.value.0, X.Asked(answer.value.1));
      }
    }
  }

  lemma {:induction false} RunKeepsInv(c: C.Config, setups: seq<X.Setup>, s: State, events: seq<Event>)
    requires Inv(c, setups, s)
    ensures Inv(c, setups, Run(c, setups, s, events))
    decreases |events|
  {
    hide Inv, Next;
    if events != [] {
      NextKeepsInv(c, setups, s, events[0]);
      RunKeepsInv(c, setups, Next(c, setups, s, events[0]), events[1..]);
    }
  }

  lemma ReachInv(c: C.Config, setups: seq<X.Setup>, events: seq<Event>)
    ensures Inv(c, setups, Reach(c, setups, events))
  {
    hide X.After, Run;
    var s := Start(|setups|);
    forall j | 0 <= j < |setups| ensures IsExport(setups[j], s.tracks[j].trace) {
      assert [] <= X.After(setups[j], []).trace;
    }
    NoInvalidations(s.tracks);
    RunKeepsInv(c, setups, s, events);
  }

  lemma {:induction false} NoInvalidations(tracks: seq<Track>)
    requires forall t :: t in tracks ==> t.trace == []
    ensures Invalidations(tracks) == 0
  {
    if tracks != [] { NoInvalidations(tracks[..|tracks| - 1]); }
  }

  // ---- what holds of the whole system ----

  lemma OneInvalidation(setup: X.Setup, t: seq<X.Effect>)
    requires IsExport(setup, t)
    ensures X.Count(X.IsInvalidation, t) <= 1
  {
    hide X.After;
    var answers :| t <= X.After(setup, answers).trace;
    var whole := X.After(setup, answers).trace;
    assert whole == t + whole[|t|..];
    X.CountConcat(X.IsInvalidation, t, whole[|t|..]);
    X.AtMostOneReauthentication(setup, answers);
  }

  lemma {:induction false} OnePerExport(setups: seq<X.Setup>, tracks: seq<Track>)
    requires AreExports(setups, tracks)
    ensures Invalidations(tracks) <= |setups|
  {
    hide IsExport;
    if tracks != [] {
      var n := |tracks| - 1;
      OneInvalidation(setups[n], tracks[n].trace);
      OnePerExport(setups[..n], tracks[..n]);
    }
  }

  // However the exports interleave: at most one token is minted for each
  // export, one for each expiry, and the first.
  lemma MintsPerExport(c: C.Config, setups: seq<X.Setup>, events: seq<Event>)
    ensures var s := Reach(c, setups, events);
      |s.cache.mints| <= 1 + |setups| + |s.cache.expired|
  {
    hide Run, C.Run, AreExports, TracksOk;
    ReachInv(c, setups, events);
    var s := Reach(c, setups, events);
    OnePerExport(setups, s.tracks);
    C.MintBound(c, s.events);
  }

  // Every send of every export carries a token that was committed after all
  // invalidates up to the moment the cache returned it: after the export's own
  // invalidate, above all, so a re-authenticated send carries a token that was
  // minted after the refusal.
  lemma SentTokensAreCurrent(c: C.Config, setups: seq<X.Setup>, events: seq<Event>, j: nat, i: nat)
    requires j < |setups| && setups[j].hasProvider
    requires var s := Reach(c, setups, events);
      |s.tracks| == |setups| && i < |s.tracks[j].trace| && s.tracks[j].trace[i].Sent?
    ensures var s := Reach(c, setups, events); var t := s.tracks[j];
      && |t.stamps| == |t.trace|
      && exists q :: 0 <= q < |s.cache.mints|
           && t.trace[i].headers == setups[j].configured + Authorization(Some(s.cache.mints[q].token))
           && forall m :: 0 <= m < i && t.trace[m].Invalidated? ==>
                t.stamps[m] <= s.cache.mints[q].invalidatesBefore
  {
    hide Run, C.Reach;
    ReachInv(c, setups, events);
    var s := Reach(c, setups, events);
    var t := s.tracks[j];
    SendFollowsItsHeaders(setups[j], t.trace, i);
    assert TrackOk(s.cache, t);
    var h := t.trace[i - 1].provided.value;
    assert Provided(t.trace[i - 1]);
    var q :| 0 <= q < |s.cache.mints| && h == Authorization(Some(s.cache.mints[q].token))
             && s.cache.mints[q].invalidatesBefore == t.stamps[i - 1];
    forall m | 0 <= m < i && t.trace[m].Invalidated? ensures t.stamps[m] <= t.stamps[i - 1] {
      assert m != i - 1;
    }
  }

  lemma SendFollowsItsHeaders(setup: X.Setup, t: seq<X.Effect>, i: nat)
    requires IsExport(setup, t) && setup.hasProvider && i < |t| && t[i].Sent?
    ensures i > 0 && Provided(t[i - 1]) && t[i].headers == setup.configured + t[i - 1].provided.value
  {
    hide X.After, X.InStep, X.Tallied;
    var answers :| t <= X.After(setup, answers).trace;
    var whole := X.After(setup, answers).trace;
    X.AfterInvariant(setup, answers);
    X.PassesAreRounds(setup, X.After(setup, answers));
    assert whole[i] == t[i];
    if i > 0 {
      assert whole[i - 1] == t[i - 1];
      assert X.Follows(setup, whole[i - 1], whole[i]);
    }
  }

  // ---- the system does something ----

  // The trace of an export whose first send is accepted.
  lemma FirstSendAccepted(setup: X.Setup, h: X.Headers)
    requires setup.hasProvider
    ensures IsExport(setup, [X.Asked(Ok(h)), X.Sent(setup.payload, setup.configured + h, Ok(R.Success))])
  {
    var t := [X.Asked(Ok(h)), X.Sent(setup.payload, setup.configured + h, Ok(R.Success))];
    var a := X.Answers(Ok(h), Ok(R.Success), Ok(()), Ok(h), Ok(R.Success), 0.0, 0.0, Ok(0.0));
    var answers, rounds := [a], [R.Round(Ok(R.Success), 0.0, 0.0, Ok(0.0))];
    assert answers[..|answers| - 1] == [] && rounds[..|rounds| - 1] == [];
    assert R.Run(setup.policy, []) == R.START;
    var loop := R.Run(setup.policy, rounds);
    assert loop == R.Next(setup.policy, R.START, rounds[0]);
    assert X.LastWait(loop) == [];
    assert X.Attempt(setup, false, a).effects == t;
    var s := X.Turned(setup, X.INITIAL, a);
    assert X.After(setup, answers) == s;
    assert X.INITIAL.rounds + rounds == rounds;
    assert s.trace == t;
    assert t <= X.After(setup, answers).trace;
  }

  // The events of such an export on a cache without a token.
  function Served(c: C.Config, setup: X.Setup, ok: C.Response): seq<Event>
    requires C.Classify(ok, c.defaultTtl).Ok?
  {
    var h := Authorization(Some(C.Classify(ok, c.defaultTtl).value.token));
    [Cache(C.Headers(0)), Cache(C.Acquire(0)), Cache(C.Respond(ok)),
     Sends(0, setup.payload, setup.configured + h, Ok(R.Success))]
  }

  lemma AnExportIsServed(c: C.Config, setup: X.Setup, ok: C.Response)
    requires setup.hasProvider && C.Classify(ok, c.defaultTtl).Ok?
    ensures var s := Reach(c, [setup], Served(c, setup, ok));
      |s.cache.mints| == 1 && |s.tracks| == 1 && |s.tracks[0].trace| == 2 && s.tracks[0].trace[1].Sent?
  {
    hide C.Classify, Run, Moves, IsExport, AreExports;
    var e, setups := Served(c, setup, ok), [setup];
    var h := Authorization(Some(C.Classify(ok, c.defaultTtl).value.token));
    var whole := [X.Asked(Ok(h)), X.Sent(setup.payload, setup.configured + h, Ok(R.Success))];
    FirstSendAccepted(setup, h);
    Prefixes(setup, whole);
    var s0 := Start(1);
    var s1 := Moves(c, s0, e[0]);
    var s2 := Moves(c, s1, e[1]);
    var s3 := Moves(c, s2, e[2]);
    var s4 := Moves(c, s3, e[3]);
    CacheIsAsked(c, ok);
    HeadersAreSent(c, setup, s3, h);
    OneExport(setup, s1.tracks);
    OneExport(setup, s2.tracks);
    OneExport(setup, s3.tracks);
    OneExport(setup, s4.tracks);
    Unfold(c, setups, s0, e);
  }

  lemma OneExport(setup: X.Setup, tracks: seq<Track>)
    requires |tracks| == 1 && IsExport(setup, tracks[0].trace)
    ensures AreExports([setup], tracks)
  {
  }

  lemma Prefixes(setup: X.Setup, t: seq<X.Effect>)
    requires IsExport(setup, t) && |t| == 2
    ensures IsExport(setup, []) && IsExport(setup, [t[0]])
  {
    hide X.After;
    var answers :| t <= X.After(setup, answers).trace;
    assert [] <= X.After(setup, answers).trace && [t[0]] <= X.After(setup, answers).trace;
  }

  lemma CacheIsAsked(c: C.Config, ok: C.Response)
    requires C.Classify(ok, c.defaultTtl).Ok?
    ensures var h := Authorization(Some(C.Classify(ok, c.defaultTtl).value.token));
      var s1 := Moves(c, Start(1), Cache(C.Headers(0)));
      var s2 := Moves(c, s1, Cache(C.Acquire(0)));
      var s3 := Moves(c, s2, Cache(C.Respond(ok)));
      && |s1.tracks| == 1 && s1.tracks[0].trace == []
      && |s2.tracks| == 1 && s2.tracks[0].trace == []
      && |s3.tracks| == 1 && s3.tracks[0].trace == [X.Asked(Ok(h))] && |s3.cache.mints| == 1
  {
    hide C.Classify;
    var s1 := Moves(c, Start(1), Cache(C.Headers(0)));
    assert s1.cache == C.INITIAL.(waiting := {0}) && s1.tracks == Start(1).tracks;
    var s2 := Moves(c, s1, Cache(C.Acquire(0)));
    assert s2.cache.holder == Some(0) && s2.cache.mints == [] && s2.tracks == Start(1).tracks;
  }

  lemma HeadersAreSent(c: C.Config, setup: X.Setup, s: State, h: X.Headers)
    requires |s.tracks| == 1
    ensures var t := Moves(c, s, Sends(0, setup.payload, setup.configured + h, Ok(R.Success)));
      && t.cache == s.cache && |t.tracks| == 1
      && t.tracks[0].trace == s.tracks[0].trace + [X.Sent(setup.payload, setup.configured + h, Ok(R.Success))]
  {
  }

  // A run of four events.
  lemma Unfold(c: C.Config, setups: seq<X.Setup>, s: State, e: seq<Event>)
    requires |e| == 4
    ensures Run(c, setups, s, e)
         == Next(c, setups, Next(c, setups, Next(c, setups, Next(c, setups, s, e[0]), e[1]), e[2]), e[3])
  {
    hide Next;
    var e1, e2, e3 := e[1..], e[2..], e[3..];
    assert e1[1..] == e2 && e2[1..] == e3 && e3[1..] == [];
    var s1 := Next(c, setups, s, e[0]);
    var s2 := Next(c, setups, s1, e[1]);
    var s3 := Next(c, setups, s2, e[2]);
    assert Run(c, setups, s, e) == Run(c, setups, s1, e1);
    assert Run(c, setups, s1, e1) == Run(c, setups, s2, e2);
    assert Run(c, setups, s2, e2) == Run(c, setups, s3, e3);
    assert Run(c, setups, s3, e3) == Run(c, setups, Next(c, setups, s3, e[3]), []);
  }
}
