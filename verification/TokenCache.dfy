// OAuth2ClientCredentials as the object it is. Each method is the code of one
// step of the transition system of module Credentials, named in its contract.
module TokenCache {
  import opened Wrappers
  import opened Credentials

  // f"Bearer {self._token}", whatever the field holds.
  function Bearer(token: Option<string>): string {
    "Bearer " + (if token.Some? then token.value else "None")
  }

  class OAuth2ClientCredentials {
    const expirySkew: real
    const defaultTtl: real

    var token: Option<string>
    var expiresAt: real

    // The state of the transition system: the two fields, the clock, where each
    // caller stands, and the mints so far.
    ghost var model: State

    ghost predicate Valid()
      reads this
    {
      token == model.token && expiresAt == model.expiresAt
    }

    ghost function Setup(): Config {
      Config(expirySkew, defaultTtl)
    }

    constructor (expirySkew: real, defaultTtl: real)
      ensures Valid() && model == INITIAL && Setup() == Config(expirySkew, defaultTtl)
    {
      this.expirySkew, this.defaultTtl := expirySkew, defaultTtl;
      token, expiresAt := None, 0.0;
      model := INITIAL;
    }

    // _usable
    predicate IsUsable(now: real)
      reads this
    {
      token.Some? && now < expiresAt - expirySkew
    }

    // The cached token has more than the skew left.
    ghost predicate FreshAt(now: real)
      reads this
    {
      token.Some? && now + expirySkew < expiresAt
    }

    // headers(), up to waiting for the lock: None when it has to wait.
    method HeadersCalled(caller: nat, now: real) returns (header: Option<string>)
      requires Valid() && now == model.now && Enabled(model, Headers(caller))
      modifies this`model
      ensures Valid() && model == Step(Setup(), old(model), Headers(caller))
      ensures Answers(header, Returned(Setup(), old(model), Headers(caller)))
      ensures header == if FreshAt(now) then Some("Bearer " + token.value) else None
    {
      if IsUsable(now) {
        header := Some(Bearer(token));
      } else {
        header := None;
      }
      model := Step(Setup(), model, Headers(caller));
    }

    // The header is the one the step returns, and None when it returns none.
    ghost predicate Answers(header: Option<string>, returned: Option<Option<string>>) {
      header == if returned.Some? then Some(Bearer(returned.value)) else None
    }

    // ... the lock is taken: None when a refresh has to start.
    method LockAcquired(caller: nat, now: real) returns (header: Option<string>)
      requires Valid() && now == model.now && Enabled(model, Acquire(caller))
      modifies this`model
      ensures Valid() && model == Step(Setup(), old(model), Acquire(caller))
      ensures Answers(header, Returned(Setup(), old(model), Acquire(caller)))
      ensures header == if FreshAt(now) then Some("Bearer " + token.value) else None
    {
      if IsUsable(now) {
        header := Some(Bearer(token));
      } else {
        header := None;
      }
      model := Step(Setup(), model, Acquire(caller));
    }

    // ... the endpoint has answered, or could not be reached: commit and
    // return the headers, or raise. Nothing is assigned before the whole
    // response has been read.
    method RefreshAnswered(response: Response, now: real) returns (r: Result<string, Failure>)
      requires Valid() && now == model.now && Enabled(model, Respond(response))
      modifies this
      ensures Valid() && model == Step(Setup(), old(model), Respond(response))
      ensures r.Ok? ==> Answers(Some(r.value), Returned(Setup(), old(model), Respond(response)))
      ensures r.Ok? ==> token.Some? && r.value == "Bearer " + token.value
      ensures r.Ok? ==> Granted(Setup(), response, token.value, expiresAt - now)
      ensures r.Raised? ==>
        && Classify(response, defaultTtl) == Raised(r.error)
        && token == old(token) && expiresAt == old(expiresAt)
    {
      model := Step(Setup(), model, Respond(response));
      if response.Unreachable? { return Raised(TransportError); }
      if response.status >= 500 { return Raised(TransportError); }
      var body := response.body;
      if body.NotJson? { return Raised(PermanentError); }
      if response.status >= 400 { return Raised(PermanentError); }
      if body.NotObject? || body.accessToken == "" { return Raised(PermanentError); }
      var ttl: real;
      match body.expiresIn {
        case Absent => ttl := defaultTtl;
        case Seconds(s) => ttl := s;
        case Malformed => return Raised(PermanentError);
      }
      ttl := if ttl < 0.0 then 0.0 else ttl;
      token := Some(body.accessToken);
      expiresAt := now + ttl;
      r := Ok(Bearer(token));
    }

    // invalidate()
    method InvalidateToken()
      requires Valid()
      modifies this
      ensures Valid() && model == Step(Setup(), old(model), Invalidate)
    {
      token := None;
      model := Step(Setup(), model, Invalidate);
    }
  }
}
