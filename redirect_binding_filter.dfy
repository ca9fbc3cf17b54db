/**
 * The JAX-RS redirect-binding filter of the relying party: it classifies an
 * incoming request as "sign-in required" (redirect to the IdP), "sign-in
 * response" (validate the token and open a session) or neither, and keeps the
 * request and response states in a state manager.
 */
module RedirectBindingFilter {
  import opened Wrappers
  import opened Processing

  const ActionParam := "wa"
  const ResultParam := "wresult"
  const RelayStateParam := "RelayState"
  const SamlResponseParam := "SAMLResponse"
  const ActionSignIn := "wsignin1.0"
  const DefaultRole := "Authenticated"

  /** The first value of each request parameter (MultivaluedMap.getFirst). */
  type Params = map<string, string>

  function GetFirst(params: Params, name: string): (r: Option<string>)
    ensures r.Some? <==> name in params
    ensures r.Some? ==> r.value == params[name]
  {
    if name in params then Some(params[name]) else None
  }

  /** The configured protocol; only the SAML protocol carries the session settings the filter reads. */
  datatype Protocol =
    | Federation
    | Saml(stateTimeToLive: int, webAppDomain: Option<string>)

  datatype HttpMethod = Get | Post | OtherMethod

  datatype FilterRequest = FilterRequest(
    /** checkSecurityContext: a valid session cookie was presented. */
    hasSecurityContext: bool,
    httpMethod: HttpMethod,
    query: Params,
    form: Params,
    webAppContext: string)

  datatype FilterConfig = FilterConfig(protocol: Protocol, audienceUris: Option<seq<string>>)

  /** The state saved before redirecting to the IdP, keyed by its own state value. */
  datatype RequestState = RequestState(state: Option<string>, targetAddress: string, createdAt: int)

  datatype RedirectionResponse = RedirectionResponse(
    redirectUrl: Option<string>,
    headers: map<string, string>,
    requestState: Option<RequestState>)

  /** What the filter hands to the processor (FedizRequest). */
  datatype SignInMessage = SignInMessage(
    action: Option<string>,
    responseToken: string,
    state: Option<string>,
    requestState: Option<RequestState>)

  /** What a successful validation yields (FedizResponse); `token` is the serialised token. */
  datatype TokenResponse = TokenResponse(
    username: Option<string>,
    issuer: Option<string>,
    roles: Option<seq<string>>,
    claims: seq<string>,
    audience: Option<string>,
    tokenExpires: Option<int>,
    token: string)

  /** The session opened after a successful sign-in. */
  datatype ResponseState = ResponseState(
    token: string,
    relayState: Option<string>,
    webAppContext: string,
    webAppDomain: Option<string>,
    createdAt: int,
    expiresAt: int,
    claims: seq<string>,
    roles: seq<string>,
    issuer: Option<string>,
    subject: Option<string>)

  /**
   * The world outside the filter: the processor's sign-in redirect for this
   * request, the processor's validation, URLDecoder, the clock and the UUID
   * that names the new session.
   */
  datatype FilterEnvironment = FilterEnvironment(
    signInRedirect: Outcome<RedirectionResponse>,
    process: SignInMessage -> Outcome<TokenResponse>,
    urlDecode: string -> string,
    now: int,
    securityContextKey: string)

  /** The exception that ends up as the cause of the filter's InternalServerError. */
  datatype Rejection =
    | BadRequest
    | Forbidden
    /** A ProcessingException of the given type raised while validating the token. */
    | NotAuthorized(kind: ErrorType)
    /** The processor returned no redirect URL. */
    | NoRedirectUrl
    /** The configured protocol is not a SAMLProtocol. */
    | ClassCast
    /** Any other exception, passed on unchanged. */
    | Thrown(failure: Failure)

  datatype FilterOutcome =
    | PassThrough
    | SeeOther(location: string, headers: map<string, string>)
    | SignedIn(securityContextKey: string)
    /** Every exception inside the filter's try block is rethrown as an InternalServerError. */
    | ServerError(cause: Rejection)

  datatype StateStore = StateStore(
    requestStates: map<string, RequestState>,
    responseStates: map<string, ResponseState>)

  datatype SignInValidation = Accepted(response: TokenResponse) | Refused(cause: Rejection)

  /** Parameters come from the query of a GET or the form of a POST; any other method has none. */
  function RequestParams(req: FilterRequest): (r: Option<Params>)
    ensures r.Some? <==> req.httpMethod != OtherMethod
    ensures req.httpMethod == Get ==> r == Some(req.query)
    ensures req.httpMethod == Post ==> r == Some(req.form)
  {
    match req.httpMethod
    case Get => Some(req.query)
    case Post => Some(req.form)
    case OtherMethod => None
  }

  /** An unauthenticated request that must be redirected to the IdP. */
  function IsSignInRequired(protocol: Protocol, params: Option<Params>): (r: bool)
    ensures r ==> params.Some?
    ensures params.Some? && protocol.Federation? ==> (r <==> GetFirst(params.value, ActionParam).None?)
    ensures params.Some? && protocol.Saml? ==> (r <==> GetFirst(params.value, RelayStateParam).None?)
  {
    params.Some? &&
      match protocol
      case Federation => ActionParam !in params.value
      case Saml(_, _) => RelayStateParam !in params.value
  }

  /** A request carrying the IdP's sign-in response. */
  function IsSignInRequest(protocol: Protocol, params: Option<Params>): (r: bool)
    ensures r ==> params.Some?
    ensures r ==> !IsSignInRequired(protocol, params)
    ensures params.Some? && protocol.Saml? ==> (r <==> !IsSignInRequired(protocol, params))
    ensures params.Some? && protocol.Federation? ==>
      (r <==> GetFirst(params.value, ActionParam) == Some(ActionSignIn))
  {
    params.Some? &&
      match protocol
      case Federation => GetFirst(params.value, ActionParam) == Some(ActionSignIn)
      case Saml(_, _) => RelayStateParam in params.value
  }

  /** The URL-decoded wresult for WS-Federation, the raw SAMLResponse for SAML. */
  function GetResponseToken(protocol: Protocol, params: Option<Params>, urlDecode: string -> string)
    : (r: Option<string>)
    ensures params.None? ==> r.None?
    ensures params.Some? && protocol.Federation? ==>
      r == (if ResultParam in params.value then Some(urlDecode(params.value[ResultParam])) else None)
    ensures params.Some? && protocol.Saml? ==> r == GetFirst(params.value, SamlResponseParam)
  {
    if params.None? then None
    else match protocol
      case Federation =>
        var result := GetFirst(params.value, ResultParam);
        if result.Some? then Some(urlDecode(result.value)) else None
      case Saml(_, _) => GetFirst(params.value, SamlResponseParam)
  }

  /** Some configured audience URI is a prefix of the token's audience. */
  predicate AudienceListed(audience: string, audienceUris: seq<string>)
  {
    exists i :: 0 <= i < |audienceUris| && StartsWith(audience, audienceUris[i])
  }

  /** validateAudienceRestrictions: None when the token passes, else the exception raised. */
  function AudienceCheck(audience: Option<string>, audienceUris: Option<seq<string>>): (r: Option<Rejection>)
    ensures r.None? <==> audience.None? || (audienceUris.Some? && AudienceListed(audience.value, audienceUris.value))
    ensures r.Some? ==> r.value in {Forbidden, Thrown(NullPointer)}
  {
    if audience.None? then None
    else if audienceUris.None? then Some(Thrown(NullPointer))
    else if AudienceListed(audience.value, audienceUris.value) then None
    else Some(Forbidden)
  }

  /** The session ends when the token does, or stateTimeToLive after now when the token has no expiry. */
  function ResponseExpiry(tokenExpires: Option<int>, now: int, stateTimeToLive: int): (r: int)
    ensures tokenExpires.Some? ==> r == tokenExpires.value
    ensures tokenExpires.None? ==> r - now == stateTimeToLive
  {
    if tokenExpires.Some? then tokenExpires.value else now + stateTimeToLive
  }

  /** A session always has at least one role. */
  function EffectiveRoles(roles: Option<seq<string>>): (r: seq<string>)
    ensures |r| > 0
    ensures roles.Some? && |roles.value| > 0 ==> r == roles.value
    ensures roles.None? || |roles.value| == 0 ==> r == [DefaultRole]
  {
    if roles.None? || |roles.value| == 0 then [DefaultRole] else roles.value
  }

  function NewResponseState(response: TokenResponse, relayState: Option<string>, webAppContext: string,
                            stateTimeToLive: int, webAppDomain: Option<string>, now: int): (s: ResponseState)
    ensures s.expiresAt == ResponseExpiry(response.tokenExpires, now, stateTimeToLive)
    ensures s.roles == EffectiveRoles(response.roles)
    ensures s.createdAt == now && s.relayState == relayState
    ensures s.subject == response.username && s.issuer == response.issuer
  {
    ResponseState(response.token, relayState, webAppContext, webAppDomain, now,
                  ResponseExpiry(response.tokenExpires, now, stateTimeToLive),
                  response.claims, EffectiveRoles(response.roles), response.issuer, response.username)
  }

  /** Saving the state before the redirect: only a state that carries its own key is kept. */
  function SaveRequestState(states: map<string, RequestState>, requestState: Option<RequestState>)
    : (r: map<string, RequestState>)
    ensures requestState.Some? && requestState.value.state.Some? ==>
      r == states[requestState.value.state.value := requestState.value]
    ensures requestState.None? || requestState.value.state.None? ==> r == states
  {
    if requestState.Some? && requestState.value.state.Some? then
      states[requestState.value.state.value := requestState.value]
    else states
  }

  /** removeRequestState: the state stored under `key`, if any, and the store without it. */
  function TakeRequestState(states: map<string, RequestState>, key: string)
    : (r: (Option<RequestState>, map<string, RequestState>))
    ensures r.0.Some? <==> key in states
    ensures r.0.Some? ==> r.0.value == states[key]
    ensures key !in r.1
    ensures forall k :: k != key ==> (k in r.1 <==> k in states)
    ensures forall k :: k in r.1 ==> r.1[k] == states[k]
  {
    (if key in states then Some(states[key]) else None, states - {key})
  }

  /**
   * validateSignInRequest: the RequestState named by RelayState is taken out of
   * the store (read once) and handed to the processor; a ProcessingException
   * becomes NotAuthorized.
   */
  function ValidateSignIn(params: Params, responseToken: string,
                          process: SignInMessage -> Outcome<TokenResponse>,
                          states: map<string, RequestState>)
    : (r: (SignInValidation, map<string, RequestState>))
    ensures r.1.Keys <= states.Keys && forall k :: k in r.1 ==> r.1[k] == states[k]
    ensures r.0.Refused? ==> r.0.cause.NotAuthorized? || (r.0.cause.Thrown? && !r.0.cause.failure.Processing?)
  {
    var relayState := GetFirst(params, RelayStateParam);
    var taken := if relayState.Some? then TakeRequestState(states, relayState.value) else (None, states);
    var message := SignInMessage(GetFirst(params, ActionParam), responseToken, relayState, taken.0);
    match process(message)
    case Ok(response) => (Accepted(response), taken.1)
    case Fail(Processing(kind)) => (Refused(NotAuthorized(kind)), taken.1)
    case Fail(failure) => (Refused(Thrown(failure)), taken.1)
  }

  /** The sign-in-response branch of the filter, once the token is known to be present. */
  function SignInResponse(params: Params, responseToken: string, req: FilterRequest, config: FilterConfig,
                          env: FilterEnvironment, store: StateStore): (r: (FilterOutcome, StateStore))
    ensures r.0.SignedIn? || r.0.ServerError?
    ensures r.0.SignedIn? ==> config.protocol.Saml? && r.0.securityContextKey == env.securityContextKey
    ensures r.1.requestStates == ValidateSignIn(params, responseToken, env.process, store.requestStates).1
    ensures r.0.ServerError? ==> r.1.responseStates == store.responseStates
    ensures r.0.SignedIn? ==>
      && env.securityContextKey in r.1.responseStates
      && r.1.responseStates == store.responseStates[env.securityContextKey := r.1.responseStates[env.securityContextKey]]
      && r.1.responseStates[env.securityContextKey].relayState == GetFirst(params, RelayStateParam)
  {
    var validated := ValidateSignIn(params, responseToken, env.process, store.requestStates);
    var store1 := store.(requestStates := validated.1);
    match validated.0
    case Refused(cause) => (ServerError(cause), store1)
    case Accepted(response) =>
      var audience := AudienceCheck(response.audience, config.audienceUris);
      if audience.Some? then (ServerError(audience.value), store1)
      else match config.protocol
        case Federation => (ServerError(ClassCast), store1)
        case Saml(stateTimeToLive, webAppDomain) =>
          var state := NewResponseState(response, GetFirst(params, RelayStateParam), req.webAppContext,
                                        stateTimeToLive, webAppDomain, env.now);
          (SignedIn(env.securityContextKey),
           store1.(responseStates := store1.responseStates[env.securityContextKey := state]))
  }

  /** The whole filter as a function of the request and the state store before it. */
  function FilterSpec(req: FilterRequest, config: FilterConfig, env: FilterEnvironment, store: StateStore)
    : (r: (FilterOutcome, StateStore))
    ensures r.0.PassThrough? <==> req.hasSecurityContext
    ensures r.0.PassThrough? ==> r.1 == store
    ensures r.0.SeeOther? ==>
      IsSignInRequired(config.protocol, RequestParams(req)) && r.1.responseStates == store.responseStates
    ensures r.0.SignedIn? ==> IsSignInRequest(config.protocol, RequestParams(req))
    ensures (!req.hasSecurityContext && !IsSignInRequired(config.protocol, RequestParams(req))
             && !IsSignInRequest(config.protocol, RequestParams(req)))
      ==> r == (ServerError(Rejection.BadRequest), store)
    ensures (!req.hasSecurityContext && IsSignInRequest(config.protocol, RequestParams(req))
             && GetResponseToken(config.protocol, RequestParams(req), env.urlDecode).None?)
      ==> r == (ServerError(Rejection.BadRequest), store)
  {
    if req.hasSecurityContext then (PassThrough, store)
    else
      var params := RequestParams(req);
      if IsSignInRequired(config.protocol, params) then
        match env.signInRedirect
        case Fail(failure) => (ServerError(Thrown(failure)), store)
        case Ok(redirection) =>
          if redirection.redirectUrl.None? then (ServerError(NoRedirectUrl), store)
          else (SeeOther(redirection.redirectUrl.value, redirection.headers),
                store.(requestStates := SaveRequestState(store.requestStates, redirection.requestState)))
      else if IsSignInRequest(config.protocol, params) then
        var token := GetResponseToken(config.protocol, params, env.urlDecode);
        if token.None? then (ServerError(Rejection.BadRequest), store)
        else SignInResponse(params.value, token.value, req, config, env, store)
      else (ServerError(Rejection.BadRequest), store)
  }

  // ---------------------------------------------------------------------------
  // Properties of the filter
  // ---------------------------------------------------------------------------

  /** A RequestState is consumed once: after a sign-in response it is gone, and nothing else moved. */
  lemma RelayStateReadOnce(params: Params, responseToken: string,
                           process: SignInMessage -> Outcome<TokenResponse>,
                           states: map<string, RequestState>)
    ensures var r := ValidateSignIn(params, responseToken, process, states);
      && (RelayStateParam in params ==> r.1 == states - {params[RelayStateParam]})
      && (RelayStateParam !in params ==> r.1 == states)
  {
  }

  /** A second response with the same RelayState finds no RequestState to hand on. */
  lemma ReplayedRelayStateFindsNothing(params: Params, responseToken: string,
                                                         process: SignInMessage -> Outcome<TokenResponse>,
                                                         states: map<string, RequestState>)
    requires RelayStateParam in params
    ensures var first := ValidateSignIn(params, responseToken, process, states);
      var second := TakeRequestState(first.1, params[RelayStateParam]);
      second.0.None? && second.1 == first.1
  {
  }

  /** The processor sees exactly the RequestState that was stored under the relay state. */
  lemma ProcessorSeesStoredState(params: Params, responseToken: string,
                                 process: SignInMessage -> Outcome<TokenResponse>,
                                 states: map<string, RequestState>)
    requires RelayStateParam in params && params[RelayStateParam] in states
    requires process(SignInMessage(GetFirst(params, ActionParam), responseToken, Some(params[RelayStateParam]),
                                   Some(states[params[RelayStateParam]]))).Ok?
    ensures ValidateSignIn(params, responseToken, process, states).0.Accepted?
  {
  }

  /** Only a sign-in response that passes every check opens a session, and only under the new key. */
  lemma SessionOpenedOnlyOnSignIn(req: FilterRequest, config: FilterConfig, env: FilterEnvironment,
                                  store: StateStore)
    ensures var r := FilterSpec(req, config, env, store);
      && (!r.0.SignedIn? ==> r.1.responseStates == store.responseStates)
      && (r.0.SignedIn? ==> r.0.securityContextKey == env.securityContextKey &&
                            env.securityContextKey in r.1.responseStates &&
                            r.1.responseStates - {env.securityContextKey} ==
                              store.responseStates - {env.securityContextKey})
  {
  }

  /** The session opened by a sign-in: its expiry, its roles and its relay state. */
  lemma SignedInSession(req: FilterRequest, config: FilterConfig, env: FilterEnvironment,
                                           store: StateStore)
    requires FilterSpec(req, config, env, store).0.SignedIn?
    ensures config.protocol.Saml?
    ensures var params := RequestParams(req);
      && params.Some? && RelayStateParam in params.value
      && var response := env.process(SignInMessage(GetFirst(params.value, ActionParam),
                                                     params.value[SamlResponseParam],
                                                     Some(params.value[RelayStateParam]),
                                                     TakeRequestState(store.requestStates,
                                                                      params.value[RelayStateParam]).0));
         var s := FilterSpec(req, config, env, store).1.responseStates[env.securityContextKey];
         && response.Ok?
         && s.expiresAt == ResponseExpiry(response.value.tokenExpires, env.now, config.protocol.stateTimeToLive)
         && |s.roles| > 0
         && s.relayState == Some(params.value[RelayStateParam])
         && s.createdAt == env.now
  {
  }

  /** A WS-Federation sign-in response never opens a session: the filter's cast to the SAML protocol fails. */
  lemma FederationNeverSignsIn(req: FilterRequest, config: FilterConfig, env: FilterEnvironment, store: StateStore)
    requires config.protocol.Federation?
    ensures !FilterSpec(req, config, env, store).0.SignedIn?
  {
  }

  /** A token whose audience no configured URI prefixes is refused, after the relay state was consumed. */
  lemma AudienceMismatchForbidden(req: FilterRequest, config: FilterConfig,
                                                    env: FilterEnvironment, store: StateStore)
    requires !req.hasSecurityContext && req.httpMethod == Get && config.protocol.Saml?
    requires RelayStateParam in req.query && SamlResponseParam in req.query
    requires config.audienceUris.Some?
    requires var validated := ValidateSignIn(req.query, req.query[SamlResponseParam], env.process,
                                             store.requestStates);
      validated.0.Accepted? && validated.0.response.audience.Some? &&
      !AudienceListed(validated.0.response.audience.value, config.audienceUris.value)
    ensures var r := FilterSpec(req, config, env, store);
      r.0 == ServerError(Forbidden) && r.1.requestStates == store.requestStates - {req.query[RelayStateParam]}
      && r.1.responseStates == store.responseStates
  {
  }

  /** Before the redirect, the store gains the request state under its own key, and nothing else. */
  lemma RedirectSavesRequestState(req: FilterRequest, config: FilterConfig, env: FilterEnvironment,
                                  store: StateStore)
    requires !req.hasSecurityContext && IsSignInRequired(config.protocol, RequestParams(req))
    requires env.signInRedirect.Ok? && env.signInRedirect.value.redirectUrl.Some?
    ensures var r := FilterSpec(req, config, env, store);
      var rs := env.signInRedirect.value.requestState;
      && r.0 == SeeOther(env.signInRedirect.value.redirectUrl.value, env.signInRedirect.value.headers)
      && r.1.responseStates == store.responseStates
      && (rs.Some? && rs.value.state.Some? ==> r.1.requestStates == store.requestStates[rs.value.state.value := rs.value])
      && (rs.None? || rs.value.state.None? ==> r.1.requestStates == store.requestStates)
  {
  }

  // ---------------------------------------------------------------------------
  // The state manager and the filter, step by step
  // ---------------------------------------------------------------------------

  class StateManager {
    var requestStates: map<string, RequestState>
    var responseStates: map<string, ResponseState>

    constructor ()
      ensures requestStates == map[] && responseStates == map[]
    {
      requestStates := map[];
      responseStates := map[];
    }

    function Store(): StateStore
      reads this
    {
      StateStore(requestStates, responseStates)
    }

    method SetRequestState(key: string, state: RequestState)
      modifies this
      ensures requestStates == old(requestStates)[key := state]
      ensures responseStates == old(responseStates)
    {
      requestStates := requestStates[key := state];
    }

    method RemoveRequestState(key: string) returns (removed: Option<RequestState>)
      modifies this
      ensures (removed, requestStates) == TakeRequestState(old(requestStates), key)
      ensures responseStates == old(responseStates)
    {
      removed := if key in requestStates then Some(requestStates[key]) else None;
      requestStates := requestStates - {key};
    }

    method SetResponseState(key: string, state: ResponseState)
      modifies this
      ensures responseStates == old(responseStates)[key := state]
      ensures requestStates == old(requestStates)
    {
      responseStates := responseStates[key := state];
    }
  }

  /** The loop over the configured audience URIs, stopping at the first prefix of the audience. */
  method ValidateAudienceRestrictions(audience: Option<string>, audienceUris: Option<seq<string>>)
    returns (rejection: Option<Rejection>)
    ensures rejection == AudienceCheck(audience, audienceUris)
  {
    if audience.None? {
      return None;
    }
    if audienceUris.None? {
      return Some(Thrown(NullPointer));
    }
    var uris := audienceUris.value;
    var validAudience := false;
    var i := 0;
    while i < |uris|
      invariant 0 <= i <= |uris|
      invariant forall j :: 0 <= j < i ==> !StartsWith(audience.value, uris[j])
      invariant !validAudience
    {
      if StartsWith(audience.value, uris[i]) {
        validAudience := true;
        break;
      }
      i := i + 1;
    }
    if !validAudience {
      return Some(Forbidden);
    }
    return None;
  }

  method ValidateSignInRequest(params: Params, responseToken: string,
                               process: SignInMessage -> Outcome<TokenResponse>, states: StateManager)
    returns (validation: SignInValidation)
    modifies states
    ensures (validation, states.requestStates) == ValidateSignIn(params, responseToken, process,
                                                                 old(states.requestStates))
    ensures states.responseStates == old(states.responseStates)
  {
    var relayState := GetFirst(params, RelayStateParam);
    var requestState: Option<RequestState> := None;
    if relayState.Some? {
      requestState := states.RemoveRequestState(relayState.value);
    }
    var message := SignInMessage(GetFirst(params, ActionParam), responseToken, relayState, requestState);
    var processed := process(message);
    match processed
    case Ok(response) =>
      validation := Accepted(response);
    case Fail(Processing(kind)) =>
      validation := Refused(NotAuthorized(kind));
    case Fail(failure) =>
      validation := Refused(Thrown(failure));
  }

  method Filter(req: FilterRequest, config: FilterConfig, env: FilterEnvironment, states: StateManager)
    returns (outcome: FilterOutcome)
    modifies states
    ensures (outcome, states.Store()) == FilterSpec(req, config, env, old(states.Store()))
  {
    if req.hasSecurityContext {
      return PassThrough;
    }
    var params := RequestParams(req);
    if IsSignInRequired(config.protocol, params) {
      if env.signInRedirect.Fail? {
        return ServerError(Thrown(env.signInRedirect.failure));
      }
      var redirection := env.signInRedirect.value;
      if redirection.redirectUrl.None? {
        return ServerError(NoRedirectUrl);
      }
      var requestState := redirection.requestState;
      if requestState.Some? && requestState.value.state.Some? {
        states.SetRequestState(requestState.value.state.value, requestState.value);
      }
      return SeeOther(redirection.redirectUrl.value, redirection.headers);
    } else if IsSignInRequest(config.protocol, params) {
      var token := GetResponseToken(config.protocol, params, env.urlDecode);
      if token.None? {
        return ServerError(Rejection.BadRequest);
      }
      var validation := ValidateSignInRequest(params.value, token.value, env.process, states);
      if validation.Refused? {
        return ServerError(validation.cause);
      }
      var response := validation.response;
      var audienceRejection := ValidateAudienceRestrictions(response.audience, config.audienceUris);
      if audienceRejection.Some? {
        return ServerError(audienceRejection.value);
      }
      match config.protocol
      case Federation =>
        outcome := ServerError(ClassCast);
      case Saml(stateTimeToLive, webAppDomain) =>
        var state := NewResponseState(response, GetFirst(params.value, RelayStateParam), req.webAppContext,
                                      stateTimeToLive, webAppDomain, env.now);
        states.SetResponseState(env.securityContextKey, state);
        outcome := SignedIn(env.securityContextKey);
    } else {
      return ServerError(Rejection.BadRequest);
    }
  }
}
