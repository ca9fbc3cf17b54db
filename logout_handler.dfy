/**
 * The logout handler of the relying party: it recognises WS-Federation
 * sign-out and sign-out-cleanup requests and the application's own logout
 * URL, and answers them by redirecting to the IdP, terminating the session or
 * returning the logout image.
 */
module LogoutHandler {
  import opened Wrappers
  import opened Processing

  const ActionSignOut := "wsignout1.0"
  const ActionSignOutCleanup := "wsignoutcleanup1.0"
  const InternalServerError := 500

  /** The parts of the servlet request the handler reads: `wa`, `wreply` and the request URI. */
  datatype LogoutRequest = LogoutRequest(wa: Option<string>, wreply: Option<string>, requestUri: string)

  /** What the processor's createSignOutRequest returns. */
  datatype SignOutRedirection = SignOutRedirection(redirectUrl: Option<string>, headers: map<string, string>)

  datatype Route = SignOut | SignOutCleanup | CustomLogout

  /** handleRequest's dispatch on `wa`. */
  function RouteOf(wa: Option<string>): (r: Route)
    ensures r == SignOut <==> wa == Some(ActionSignOut)
    ensures r == SignOutCleanup <==> wa == Some(ActionSignOutCleanup)
  {
    if wa == Some(ActionSignOut) then SignOut
    else if wa == Some(ActionSignOutCleanup) then SignOutCleanup
    else CustomLogout
  }

  /** The request URI is the configured logout URL under the servlet context path. */
  predicate IsLogoutUrl(logoutUrl: Option<string>, servletContextPath: Option<string>, requestUri: string)
  {
    !IsNullOrEmpty(logoutUrl) && servletContextPath.Some? &&
    requestUri == servletContextPath.value + logoutUrl.value
  }

  /** canHandleRequest: a WS-Federation logout action, or the custom logout URL. */
  function CanHandle(logoutUrl: Option<string>, servletContextPath: Option<string>, request: LogoutRequest)
    : (r: bool)
    ensures request.wa == Some(ActionSignOut) ==> r
    ensures request.wa == Some(ActionSignOutCleanup) ==> r
    ensures r <==> RouteOf(request.wa) != CustomLogout ||
                   IsLogoutUrl(logoutUrl, servletContextPath, request.requestUri)
  {
    if request.wa == Some(ActionSignOut) || request.wa == Some(ActionSignOutCleanup) then true
    else IsLogoutUrl(logoutUrl, servletContextPath, request.requestUri)
  }

  /** signout reports success exactly when the processor produced a redirect URL. */
  predicate SignOutSucceeds(redirection: Outcome<SignOutRedirection>)
  {
    redirection.Ok? && redirection.value.redirectUrl.Some?
  }

  /** The value handleRequest returns. */
  function Handled(request: LogoutRequest, redirection: Outcome<SignOutRedirection>): (r: bool)
    ensures RouteOf(request.wa) == SignOutCleanup ==> r
    ensures RouteOf(request.wa) != SignOutCleanup ==> (r <==> SignOutSucceeds(redirection))
  {
    match RouteOf(request.wa)
    case SignOutCleanup => true
    case _ => SignOutSucceeds(redirection)
  }

  /** A request that reaches the custom-logout route was admitted by the configured logout URL. */
  lemma CustomRouteNeedsLogoutUrl(logoutUrl: Option<string>, servletContextPath: Option<string>,
                                  request: LogoutRequest)
    requires CanHandle(logoutUrl, servletContextPath, request)
    requires RouteOf(request.wa) == CustomLogout
    ensures logoutUrl.Some? && |logoutUrl.value| > 0 && servletContextPath.Some?
    ensures request.requestUri == servletContextPath.value + logoutUrl.value
  {
  }

  /** The custom logout answers exactly like a sign-out: the route decides nothing but the log line. */
  lemma CustomLogoutActsAsSignOut(request: LogoutRequest, redirection: Outcome<SignOutRedirection>)
    requires RouteOf(request.wa) == CustomLogout
    ensures Handled(request, redirection) == Handled(request.(wa := Some(ActionSignOut)), redirection)
  {
  }

  /** The effects of the handler on the servlet response and session. */
  class ServletExchange {
    var sessionValid: bool
    var headers: set<(string, string)>
    var redirectedTo: Option<string>
    var errorStatus: Option<int>
    var logoutImageWritten: bool

    constructor ()
      ensures sessionValid && headers == {} && redirectedTo.None? && errorStatus.None? && !logoutImageWritten
    {
      sessionValid := true;
      headers := {};
      redirectedTo := None;
      errorStatus := None;
      logoutImageWritten := false;
    }

    method InvalidateSession()
      modifies this
      ensures !sessionValid
      ensures headers == old(headers) && redirectedTo == old(redirectedTo)
      ensures errorStatus == old(errorStatus) && logoutImageWritten == old(logoutImageWritten)
    {
      sessionValid := false;
    }

    method AddHeader(name: string, value: string)
      modifies this
      ensures headers == old(headers) + {(name, value)}
      ensures sessionValid == old(sessionValid) && redirectedTo == old(redirectedTo)
      ensures errorStatus == old(errorStatus) && logoutImageWritten == old(logoutImageWritten)
    {
      headers := headers + {(name, value)};
    }

    method SendRedirect(location: string)
      modifies this
      ensures redirectedTo == Some(location)
      ensures sessionValid == old(sessionValid) && headers == old(headers)
      ensures errorStatus == old(errorStatus) && logoutImageWritten == old(logoutImageWritten)
    {
      redirectedTo := Some(location);
    }

    method SendError(status: int)
      modifies this
      ensures errorStatus == Some(status)
      ensures sessionValid == old(sessionValid) && headers == old(headers)
      ensures redirectedTo == old(redirectedTo) && logoutImageWritten == old(logoutImageWritten)
    {
      errorStatus := Some(status);
    }

    method WriteLogoutImage()
      modifies this
      ensures logoutImageWritten
      ensures sessionValid == old(sessionValid) && headers == old(headers)
      ensures redirectedTo == old(redirectedTo) && errorStatus == old(errorStatus)
    {
      logoutImageWritten := true;
    }
  }

  /** Every header of a redirection, as name-value pairs. */
  function HeaderPairs(headers: map<string, string>): set<(string, string)>
  {
    set name | name in headers :: (name, headers[name])
  }

  /** Copying one more header adds exactly its pair. */
  lemma HeaderPairsGrow(headers: map<string, string>, remaining: set<string>, name: string)
    requires name in remaining && name in headers
    ensures HeaderPairs(headers - (remaining - {name})) == HeaderPairs(headers - remaining) + {(name, headers[name])}
  {
    var before := headers - remaining;
    var after := headers - (remaining - {name});
    forall p | p in HeaderPairs(after)
      ensures p in HeaderPairs(before) + {(name, headers[name])}
    {
      var k :| k in after && p == (k, after[k]);
      if k != name {
        assert k in before;
      }
    }
    forall p | p in HeaderPairs(before) + {(name, headers[name])}
      ensures p in HeaderPairs(after)
    {
      if p != (name, headers[name]) {
        var k :| k in before && p == (k, before[k]);
        assert k in after;
      } else {
        assert name in after;
      }
    }
  }

  /**
   * What signout leaves behind: on success the redirection's headers are added and
   * the client is redirected; on an exception the response is a 500; a redirection
   * without a URL changes nothing. The session and the logout image are untouched.
   */
  twostate predicate SignedOut(exchange: ServletExchange, redirection: Outcome<SignOutRedirection>)
    reads exchange
  {
    && exchange.sessionValid == old(exchange.sessionValid)
    && exchange.logoutImageWritten == old(exchange.logoutImageWritten)
    && (SignOutSucceeds(redirection) ==>
          && exchange.redirectedTo == redirection.value.redirectUrl
          && exchange.headers == old(exchange.headers) + HeaderPairs(redirection.value.headers)
          && exchange.errorStatus == old(exchange.errorStatus))
    && (redirection.Fail? ==>
          && exchange.errorStatus == Some(InternalServerError)
          && exchange.headers == old(exchange.headers)
          && exchange.redirectedTo == old(exchange.redirectedTo))
    && (redirection.Ok? && redirection.value.redirectUrl.None? ==>
          && exchange.errorStatus == old(exchange.errorStatus)
          && exchange.headers == old(exchange.headers)
          && exchange.redirectedTo == old(exchange.redirectedTo))
  }

  /**
   * What signoutCleanup leaves behind: the session is invalidated, then the client
   * is redirected to a non-empty `wreply` or else receives the logout image.
   */
  twostate predicate CleanedUp(exchange: ServletExchange, wreply: Option<string>)
    reads exchange
  {
    && !exchange.sessionValid
    && exchange.headers == old(exchange.headers)
    && exchange.errorStatus == old(exchange.errorStatus)
    && (!IsNullOrEmpty(wreply) ==>
          exchange.redirectedTo == wreply && exchange.logoutImageWritten == old(exchange.logoutImageWritten))
    && (IsNullOrEmpty(wreply) ==>
          exchange.logoutImageWritten && exchange.redirectedTo == old(exchange.redirectedTo))
  }

  class Handler {
    const logoutUrl: Option<string>
    const servletContextPath: Option<string>
    /** The token of the current session, handed to the processor when signing out. */
    var token: Option<string>

    /** The one-argument constructor uses the context path "/". */
    constructor (logoutUrl: Option<string>, servletContextPath: Option<string>)
      ensures this.logoutUrl == logoutUrl && this.servletContextPath == servletContextPath
      ensures token.None?
    {
      this.logoutUrl := logoutUrl;
      this.servletContextPath := servletContextPath;
      token := None;
    }

    method SetToken(token: Option<string>)
      modifies this
      ensures this.token == token
    {
      this.token := token;
    }

    method CanHandleRequest(request: LogoutRequest) returns (r: bool)
      ensures r == CanHandle(logoutUrl, servletContextPath, request)
    {
      if request.wa == Some(ActionSignOut) || request.wa == Some(ActionSignOutCleanup) {
        return true;
      }
      r := !IsNullOrEmpty(logoutUrl) && servletContextPath.Some? &&
           request.requestUri == servletContextPath.value + logoutUrl.value;
    }

    /**
     * handleRequest. `createSignOutRequest` is the processor, given the current token;
     * whatever it throws (the token wrapper included) is its failure.
     */
    method HandleRequest(request: LogoutRequest, createSignOutRequest: Option<string> -> Outcome<SignOutRedirection>,
                         exchange: ServletExchange)
      returns (handled: bool)
      modifies exchange
      ensures handled == Handled(request, createSignOutRequest(token))
      ensures RouteOf(request.wa) == SignOutCleanup ==> CleanedUp(exchange, request.wreply)
      ensures RouteOf(request.wa) != SignOutCleanup ==> SignedOut(exchange, createSignOutRequest(token))
    {
      var route := RouteOf(request.wa);
      match route
      case SignOut =>
        handled := Signout(createSignOutRequest, exchange);
      case SignOutCleanup =>
        handled := SignoutCleanup(request, exchange);
      case CustomLogout =>
        handled := CustomLogoutRequest(createSignOutRequest, exchange);
    }

    method CustomLogoutRequest(createSignOutRequest: Option<string> -> Outcome<SignOutRedirection>,
                               exchange: ServletExchange)
      returns (handled: bool)
      modifies exchange
      ensures handled <==> SignOutSucceeds(createSignOutRequest(token))
      ensures SignedOut(exchange, createSignOutRequest(token))
    {
      handled := Signout(createSignOutRequest, exchange);
    }

    /** signoutCleanup: end the session, then redirect to wreply or send the logout image. */
    method SignoutCleanup(request: LogoutRequest, exchange: ServletExchange) returns (handled: bool)
      modifies exchange
      ensures handled
      ensures CleanedUp(exchange, request.wreply)
    {
      exchange.InvalidateSession();
      if !IsNullOrEmpty(request.wreply) {
        exchange.SendRedirect(request.wreply.value);
      } else {
        exchange.WriteLogoutImage();
      }
      return true;
    }

    /**
     * signout: ask the processor for the IdP's sign-out URL; on success copy its
     * headers and redirect, on an exception answer 500, and report whether the
     * redirect was sent. The session is left as it is.
     */
    method Signout(createSignOutRequest: Option<string> -> Outcome<SignOutRedirection>, exchange: ServletExchange)
      returns (handled: bool)
      modifies exchange
      ensures handled <==> SignOutSucceeds(createSignOutRequest(token))
      ensures SignedOut(exchange, createSignOutRequest(token))
    {
      var redirection := createSignOutRequest(token);
      if redirection.Fail? {
        exchange.SendError(InternalServerError);
        return false;
      }
      var redirectUrl := redirection.value.redirectUrl;
      if redirectUrl.None? {
        return false;
      }
      var headers := redirection.value.headers;
      var remaining := headers.Keys;
      while remaining != {}
        invariant remaining <= headers.Keys
        invariant exchange.headers == old(exchange.headers) + HeaderPairs(headers - remaining)
        invariant exchange.sessionValid == old(exchange.sessionValid)
        invariant exchange.logoutImageWritten == old(exchange.logoutImageWritten)
        invariant exchange.redirectedTo == old(exchange.redirectedTo)
        invariant exchange.errorStatus == old(exchange.errorStatus)
        decreases remaining
      {
        var name :| name in remaining;
        exchange.AddHeader(name, headers[name]);
        HeaderPairsGrow(headers, remaining, name);
        remaining := remaining - {name};
      }
      assert headers - remaining == headers;
      exchange.SendRedirect(redirectUrl.value);
      return true;
    }
  }
}
