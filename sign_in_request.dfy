/**
 * Building the WS-Federation sign-in redirect (FederationProcessorImpl.createSignInRequest):
 * the identity provider's URL followed by a query of the passive-requestor
 * parameters of section 13.2 of WS-Federation 1.2 -- wa, wreply, wtrealm, then
 * wauth, wreq, whr and wfresh when they are set, then wct -- and an optional,
 * unencoded query extension.
 *
 * The configured values are taken as already resolved (strings or callback
 * results).  URL encoding, URL parsing and the clock are collaborators passed in.
 */
module SignInRequest {
  import opened Wrappers
  import opened Processing

  const ActionSignIn: string := "wsignin1.0"

  /** The passive-requestor parameters a sign-in request sends, in the order it sends them. */
  datatype ParamName = Action | Reply | Realm | AuthType | TokenRequest | HomeRealm | Freshness | CurrentTime

  /** The parameter's name on the wire. */
  function Key(n: ParamName): string
  {
    match n
    case Action => "wa"
    case Reply => "wreply"
    case Realm => "wtrealm"
    case AuthType => "wauth"
    case TokenRequest => "wreq"
    case HomeRealm => "whr"
    case Freshness => "wfresh"
    case CurrentTime => "wct"
  }

  /** The position of a parameter in the order the sign-in query sends them. */
  function Rank(n: ParamName): nat
  {
    match n
    case Action => 0
    case Reply => 1
    case Realm => 2
    case AuthType => 3
    case TokenRequest => 4
    case HomeRealm => 5
    case Freshness => 6
    case CurrentTime => 7
  }

  /** java.net.URL and URLEncoder, as far as the sign-in request uses them. */
  datatype UrlTools = UrlTools(
    /** `new URL(s)` succeeds. */
    isUrl: string -> bool,
    /** `new URL(s).getPath()`; None when the URL is malformed. */
    path: string -> Option<string>,
    /** URLEncoder.encode(s, "UTF-8"). */
    encode: string -> string)

  datatype HttpRequest = HttpRequest(requestUrl: string, contextPath: Option<string>)

  /** Where the realm comes from: not configured (the default applies), or a resolved value. */
  datatype RealmSource = NotConfigured | Resolved(realm: Option<string>)

  /** The protocol settings after their callbacks have been resolved. */
  datatype SignInSettings = SignInSettings(
    federationProtocol: bool,
    issuer: Option<string>,
    authenticationType: Option<string>,
    request: Option<string>,
    homeRealm: Option<string>,
    freshness: Option<string>,
    signInQuery: Option<string>,
    reply: Option<string>,
    realm: RealmSource)

  datatype Param = Param(name: ParamName, value: string)

  /** A name=value pair as it appears in a query string. */
  datatype Pair = Pair(key: string, value: string)

  // ---------------------------------------------------------------------------
  // String search

  /** `sub` occurs in `s` at position `i`. */
  predicate OccursAt(s: string, sub: string, i: int)
  {
    0 <= i && i + |sub| <= |s| && s[i..i + |sub|] == sub
  }

  /** The last position at which `sub` occurs in `s`, or -1 (String.lastIndexOf). */
  function LastIndexOf(s: string, sub: string): (r: int)
    ensures r == -1 || OccursAt(s, sub, r)
    ensures forall i :: r < i ==> !OccursAt(s, sub, i)
  {
    if |sub| > |s| then -1 else LastIndexAtOrBefore(s, sub, |s| - |sub|)
  }

  function LastIndexAtOrBefore(s: string, sub: string, k: int): (r: int)
    requires -1 <= k && k + |sub| <= |s|
    ensures -1 <= r <= k
    ensures r == -1 || OccursAt(s, sub, r)
    ensures forall i :: r < i <= k ==> !OccursAt(s, sub, i)
    decreases k + 1
  {
    if k < 0 then -1
    else if s[k..k + |sub|] == sub then k
    else LastIndexAtOrBefore(s, sub, k - 1)
  }

  /** The last position of `c` in `s`, or -1. */
  function LastIndexOfChar(s: string, c: char): (r: int)
    ensures -1 <= r < |s|
    ensures 0 <= r ==> s[r] == c
    ensures forall i :: r < i < |s| ==> s[i] != c
  {
    if |s| == 0 then -1
    else if s[|s| - 1] == c then |s| - 1
    else LastIndexOfChar(s[..|s| - 1], c)
  }

  /** The first position of `c` in `s`, or |s|. */
  function IndexOfChar(s: string, c: char): (r: nat)
    ensures r <= |s|
    ensures r < |s| ==> s[r] == c
    ensures forall i :: 0 <= i < r ==> s[i] != c
  {
    if |s| == 0 then 0
    else if s[0] == c then 0
    else 1 + IndexOfChar(s[1..], c)
  }

  // ---------------------------------------------------------------------------
  // Context path

  /**
   * The request URL with its path cut off at the path's last occurrence.  A URL
   * without a path is kept whole; a path that does not occur makes `substring`
   * throw.
   */
  function UrlBase(url: string, path: string): (r: Option<string>)
    ensures path == "" ==> r == Some(url)
    ensures r.None? <==> path != "" && LastIndexOf(url, path) == -1
    ensures r.Some? && path != "" ==>
      var k := |r.value|;
      && OccursAt(url, path, k) && url[..k] == r.value
      && forall i :: k < i ==> !OccursAt(url, path, i)
  {
    if path == "" then Some(url)
    else
      var k := LastIndexOf(url, path);
      if k < 0 then None else Some(url[..k])
  }

  /**
   * extractFullContextPath: the request URL minus its path, plus the context path
   * if there is one, plus a slash.  None when the URL is malformed or its path
   * cannot be located.
   */
  function ExtractFullContextPath(request: HttpRequest, tools: UrlTools): (r: Option<string>)
    ensures r.None? <==>
      tools.path(request.requestUrl).None? ||
      UrlBase(request.requestUrl, tools.path(request.requestUrl).value).None?
    ensures r.Some? ==> |r.value| > 0 && r.value[|r.value| - 1] == '/'
    ensures r.Some? ==>
      var base := UrlBase(request.requestUrl, tools.path(request.requestUrl).value).value;
      && StartsWith(request.requestUrl, base)
      && r.value == base + (if IsNullOrEmpty(request.contextPath) then "" else request.contextPath.value) + "/"
  {
    match tools.path(request.requestUrl)
    case None => None
    case Some(path) =>
      match UrlBase(request.requestUrl, path)
      case None => None
      case Some(base) =>
        if !IsNullOrEmpty(request.contextPath) then Some(base + request.contextPath.value + "/")
        else Some(base + "/")
  }

  /** A URL without a path component keeps everything before the context path. */
  lemma ContextPathOfBareUrl(request: HttpRequest, tools: UrlTools, ctx: string)
    requires tools.path(request.requestUrl) == Some("")
    requires request.contextPath == Some(ctx) && ctx != ""
    ensures ExtractFullContextPath(request, tools) == Some(request.requestUrl + ctx + "/")
  {
  }

  // ---------------------------------------------------------------------------
  // wreply and wtrealm

  /**
   * The reply address: the request URL when none is configured; a configured
   * absolute URL as is; anything else resolved against the full context path with
   * one leading slash dropped.
   */
  function ResolveReply(reply: Option<string>, request: HttpRequest, tools: UrlTools): (r: Option<string>)
    ensures IsNullOrEmpty(reply) ==> r == Some(request.requestUrl)
    ensures !IsNullOrEmpty(reply) && tools.isUrl(reply.value) ==> r == reply
    ensures !IsNullOrEmpty(reply) && !tools.isUrl(reply.value) ==>
      var ctx := ExtractFullContextPath(request, tools);
      && (ctx.None? ==> r.None?)
      && (ctx.Some? ==>
            r == Some(ctx.value + if StartsWith(reply.value, "/") then reply.value[1..] else reply.value))
  {
    if IsNullOrEmpty(reply) then Some(request.requestUrl)
    else if tools.isUrl(reply.value) then reply
    else match ExtractFullContextPath(request, tools)
      case None => None
      case Some(ctx) => if StartsWith(reply.value, "/") then Some(ctx + reply.value[1..]) else Some(ctx + reply.value)
  }

  /** A relative reply resolves to the same address with or without its leading slash. */
  lemma LeadingSlashIgnored(rel: string, request: HttpRequest, tools: UrlTools)
    requires rel != "" && !StartsWith(rel, "/")
    requires !tools.isUrl("/" + rel) && !tools.isUrl(rel)
    ensures ResolveReply(Some("/" + rel), request, tools) == ResolveReply(Some(rel), request, tools)
  {
    assert ("/" + rel)[1..] == rel;
  }

  /** The realm: the full context path by default; a null resolved realm cannot be encoded. */
  function ResolveRealm(realm: RealmSource, request: HttpRequest, tools: UrlTools): (r: Option<string>)
    ensures realm.NotConfigured? ==> r == ExtractFullContextPath(request, tools)
    ensures realm.Resolved? ==> r == realm.realm
  {
    match realm
    case NotConfigured => ExtractFullContextPath(request, tools)
    case Resolved(value) => value
  }

  // ---------------------------------------------------------------------------
  // The query

  /** A parameter that is sent only when its value is non-null and non-empty. */
  function Optional(name: ParamName, value: Option<string>, encode: string -> string): (ps: seq<Param>)
    ensures |ps| <= 1
    ensures |ps| == 1 <==> !IsNullOrEmpty(value)
    ensures |ps| == 1 ==> ps[0] == Param(name, encode(value.value))
    ensures forall x :: x in ps ==> x.name == name
  {
    if IsNullOrEmpty(value) then [] else [Param(name, encode(value.value))]
  }

  /**
   * The parameters of the sign-in query, values encoded, in the order they are
   * sent: it opens with wa=wsignin1.0, the encoded wreply and the encoded wtrealm,
   * and closes with the encoded wct.
   */
  function SignInParameters(settings: SignInSettings, reply: string, realm: string, wct: string,
                            encode: string -> string): (ps: seq<Param>)
    ensures 4 <= |ps| <= 8
    ensures ps[0] == Param(Action, ActionSignIn)
    ensures ps[1] == Param(Reply, encode(reply))
    ensures ps[2] == Param(Realm, encode(realm))
    ensures ps[|ps| - 1] == Param(CurrentTime, encode(wct))
  {
    [Param(Action, ActionSignIn), Param(Reply, encode(reply)), Param(Realm, encode(realm))]
    + Optional(AuthType, settings.authenticationType, encode)
    + Optional(TokenRequest, settings.request, encode)
    + Optional(HomeRealm, settings.homeRealm, encode)
    + Optional(Freshness, settings.freshness, encode)
    + [Param(CurrentTime, encode(wct))]
  }

  /** Some parameter of the list has the given name. */
  predicate HasParam(ps: seq<Param>, name: ParamName)
  {
    |ps| > 0 && (ps[|ps| - 1].name == name || HasParam(ps[..|ps| - 1], name))
  }

  lemma {:induction false} HasParamConcat(x: seq<Param>, y: seq<Param>, name: ParamName)
    ensures HasParam(x + y, name) <==> HasParam(x, name) || HasParam(y, name)
  {
    if |y| == 0 {
      assert x + y == x;
    } else {
      var y' := y[..|y| - 1];
      assert (x + y)[..|x + y| - 1] == x + y';
      HasParamConcat(x, y', name);
    }
  }

  /** Every name occurs at most once, and in the order of Rank. */
  predicate Ascending(ps: seq<Param>)
  {
    forall i, j :: 0 <= i < j < |ps| ==> Rank(ps[i].name) < Rank(ps[j].name)
  }

  predicate RanksWithin(ps: seq<Param>, lo: nat, hi: nat)
  {
    forall i :: 0 <= i < |ps| ==> lo <= Rank(ps[i].name) < hi
  }

  lemma ConcatOrdered(x: seq<Param>, y: seq<Param>, lo: nat, mid: nat, hi: nat)
    requires lo <= mid <= hi
    requires Ascending(x) && RanksWithin(x, lo, mid)
    requires Ascending(y) && RanksWithin(y, mid, hi)
    ensures Ascending(x + y) && RanksWithin(x + y, lo, hi)
  {
    forall i, j | 0 <= i < j < |x + y|
      ensures Rank((x + y)[i].name) < Rank((x + y)[j].name)
    {
      if j < |x| {
        assert (x + y)[i] == x[i] && (x + y)[j] == x[j];
      } else if i < |x| {
        assert (x + y)[i] == x[i] && (x + y)[j] == y[j - |x|];
      } else {
        assert (x + y)[i] == y[i - |x|] && (x + y)[j] == y[j - |x|];
      }
    }
    forall i | 0 <= i < |x + y|
      ensures lo <= Rank((x + y)[i].name) < hi
    {
      if i < |x| {
        assert (x + y)[i] == x[i];
      } else {
        assert (x + y)[i] == y[i - |x|];
      }
    }
  }

  lemma OptionalOrdered(name: ParamName, value: Option<string>, encode: string -> string)
    ensures Ascending(Optional(name, value, encode))
    ensures RanksWithin(Optional(name, value, encode), Rank(name), Rank(name) + 1)
    ensures HasParam(Optional(name, value, encode), name) <==> !IsNullOrEmpty(value)
  {
    if !IsNullOrEmpty(value) {
      assert Optional(name, value, encode)[0].name == name;
    }
  }

  /** The sign-in query sends every name at most once, all in the protocol's order. */
  lemma {:induction false} SignInParametersOrdered(settings: SignInSettings, reply: string, realm: string,
                                                   wct: string, encode: string -> string)
    ensures Ascending(SignInParameters(settings, reply, realm, wct, encode))
  {
    var a := Optional(AuthType, settings.authenticationType, encode);
    var q := Optional(TokenRequest, settings.request, encode);
    var h := Optional(HomeRealm, settings.homeRealm, encode);
    var f := Optional(Freshness, settings.freshness, encode);
    var head := [Param(Action, ActionSignIn), Param(Reply, encode(reply)), Param(Realm, encode(realm))];
    var tail := [Param(CurrentTime, encode(wct))];
    assert Ascending(head + a) && RanksWithin(head + a, 0, 4) by {
      HeadOrdered(head);
      OptionalOrdered(AuthType, settings.authenticationType, encode);
      ConcatOrdered(head, a, 0, 3, 4);
    }
    assert Ascending(head + a + q) && RanksWithin(head + a + q, 0, 5) by {
      OptionalOrdered(TokenRequest, settings.request, encode);
      ConcatOrdered(head + a, q, 0, 4, 5);
    }
    assert Ascending(head + a + q + h) && RanksWithin(head + a + q + h, 0, 6) by {
      OptionalOrdered(HomeRealm, settings.homeRealm, encode);
      ConcatOrdered(head + a + q, h, 0, 5, 6);
    }
    assert Ascending(head + a + q + h + f) && RanksWithin(head + a + q + h + f, 0, 7) by {
      OptionalOrdered(Freshness, settings.freshness, encode);
      ConcatOrdered(head + a + q + h, f, 0, 6, 7);
    }
    assert Ascending(head + a + q + h + f + tail) by {
      assert Ascending(tail) && RanksWithin(tail, 7, 8);
      ConcatOrdered(head + a + q + h + f, tail, 0, 7, 8);
    }
  }

  lemma HeadOrdered(head: seq<Param>)
    requires |head| == 3 && head[0].name == Action && head[1].name == Reply && head[2].name == Realm
    ensures Ascending(head) && RanksWithin(head, 0, 3)
  {
  }

  /** The configured value of an optional parameter; the fixed parameters have none. */
  function Configured(settings: SignInSettings, n: ParamName): Option<string>
  {
    match n
    case AuthType => settings.authenticationType
    case TokenRequest => settings.request
    case HomeRealm => settings.homeRealm
    case Freshness => settings.freshness
    case _ => None
  }

  predicate IsFixed(n: ParamName)
  {
    n == Action || n == Reply || n == Realm || n == CurrentTime
  }

  /**
   * Which parameters the sign-in query sends: wa, wreply, wtrealm and wct always;
   * wauth, wreq, whr and wfresh exactly when they are set.
   */
  lemma {:induction false} SignInParameterSent(settings: SignInSettings, reply: string, realm: string,
                                               wct: string, encode: string -> string, n: ParamName)
    ensures HasParam(SignInParameters(settings, reply, realm, wct, encode), n) <==>
      IsFixed(n) || !IsNullOrEmpty(Configured(settings, n))
  {
    var a := Optional(AuthType, settings.authenticationType, encode);
    var q := Optional(TokenRequest, settings.request, encode);
    var h := Optional(HomeRealm, settings.homeRealm, encode);
    var f := Optional(Freshness, settings.freshness, encode);
    var head := [Param(Action, ActionSignIn), Param(Reply, encode(reply)), Param(Realm, encode(realm))];
    var tail := [Param(CurrentTime, encode(wct))];
    assert SignInParameters(settings, reply, realm, wct, encode) == head + a + q + h + f + tail;
    HasParamConcat(head + a + q + h + f, tail, n);
    HasParamConcat(head + a + q + h, f, n);
    HasParamConcat(head + a + q, h, n);
    HasParamConcat(head + a, q, n);
    HasParamConcat(head, a, n);
    FixedHasParam(head, tail, n);
    OptionalHasParam(AuthType, settings.authenticationType, encode);
    OptionalHasParam(TokenRequest, settings.request, encode);
    OptionalHasParam(HomeRealm, settings.homeRealm, encode);
    OptionalHasParam(Freshness, settings.freshness, encode);
  }

  /** A set optional parameter is sent with its encoded value. */
  lemma SignInParameterValue(settings: SignInSettings, reply: string, realm: string,
                             wct: string, encode: string -> string, n: ParamName)
    requires !IsNullOrEmpty(Configured(settings, n))
    ensures Param(n, encode(Configured(settings, n).value)) in SignInParameters(settings, reply, realm, wct, encode)
  {
  }

  lemma FixedHasParam(head: seq<Param>, tail: seq<Param>, n: ParamName)
    requires |head| == 3 && head[0].name == Action && head[1].name == Reply && head[2].name == Realm
    requires |tail| == 1 && tail[0].name == CurrentTime
    ensures HasParam(head, n) <==> n == Action || n == Reply || n == Realm
    ensures HasParam(tail, n) <==> n == CurrentTime
  {
    assert head[..2][..1][..0] == [] && tail[..0] == [];
    assert HasParam(head[..2][..1], n) <==> n == Action;
    assert head[..2][..1] == head[..1];
  }

  lemma OptionalHasParam(name: ParamName, value: Option<string>, encode: string -> string)
    ensures forall n :: HasParam(Optional(name, value, encode), n) <==> !IsNullOrEmpty(value) && n == name
  {
    if !IsNullOrEmpty(value) {
      assert Optional(name, value, encode)[..0] == [];
    }
  }

  function Render(p: Param): string
  {
    Key(p.name) + "=" + p.value
  }

  /** name=value pairs separated by '&'. */
  function Join(ps: seq<Param>): string
  {
    if |ps| == 0 then ""
    else if |ps| == 1 then Render(ps[0])
    else Join(ps[..|ps| - 1]) + "&" + Render(ps[|ps| - 1])
  }

  /** The parameters as the name=value pairs of a query string. */
  function Wire(ps: seq<Param>): (r: seq<Pair>)
    ensures |r| == |ps|
  {
    if |ps| == 0 then [] else Wire(ps[..|ps| - 1]) + [Pair(Key(ps[|ps| - 1].name), ps[|ps| - 1].value)]
  }

  /** Reads a query string back into its pairs: the reference that Join is checked against. */
  function ParseQuery(s: string): seq<Pair>
    decreases |s|
  {
    var k := LastIndexOfChar(s, '&');
    if k < 0 then [ParsePair(s)]
    else ParseQuery(s[..k]) + [ParsePair(s[k + 1..])]
  }

  function ParsePair(s: string): Pair
  {
    var k := IndexOfChar(s, '=');
    if k == |s| then Pair(s, "") else Pair(s[..k], s[k + 1..])
  }

  predicate Plain(s: string)
  {
    forall i :: 0 <= i < |s| ==> s[i] != '&' && s[i] != '='
  }

  predicate PlainValues(ps: seq<Param>)
  {
    forall i :: 0 <= i < |ps| ==> Plain(ps[i].value)
  }

  lemma KeyIsPlain(n: ParamName)
    ensures Plain(Key(n))
  {
  }

  /** A rendered parameter with a plain value reads back as its pair, and contains no '&'. */
  lemma ParseRendered(p: Param)
    requires Plain(p.value)
    ensures ParsePair(Render(p)) == Pair(Key(p.name), p.value)
    ensures LastIndexOfChar(Render(p), '&') == -1
  {
    KeyIsPlain(p.name);
    var key := Key(p.name);
    var r := Render(p);
    var n := |key|;
    assert r[n] == '=';
    assert forall i :: 0 <= i < n ==> r[i] == key[i];
    assert forall i :: n < i < |r| ==> r[i] == p.value[i - n - 1];
    assert IndexOfChar(r, '=') == n;
    assert r[..n] == key && r[n + 1..] == p.value;
  }

  /** The last '&' of `a & b`, when b has none, is the separator. */
  lemma LastSeparator(a: string, b: string)
    requires LastIndexOfChar(b, '&') == -1
    ensures LastIndexOfChar(a + "&" + b, '&') == |a|
    ensures (a + "&" + b)[..|a|] == a && (a + "&" + b)[|a| + 1..] == b
  {
    var s := a + "&" + b;
    assert s[|a|] == '&';
    assert forall i :: |a| < i < |s| ==> s[i] == b[i - |a| - 1];
  }

  /** A query of parameters whose values carry no separators reads back as those parameters. */
  lemma {:induction false} ParseJoinRoundTrip(ps: seq<Param>)
    requires |ps| > 0 && PlainValues(ps)
    ensures ParseQuery(Join(ps)) == Wire(ps)
  {
    var last := ps[|ps| - 1];
    ParseRendered(last);
    if |ps| > 1 {
      var init := ps[..|ps| - 1];
      LastSeparator(Join(init), Render(last));
      ParseJoinRoundTrip(init);
    } else {
      assert Wire(ps[..0]) == [];
    }
  }

  ghost predicate PlainEncoder(encode: string -> string)
  {
    forall s :: Plain(encode(s))
  }

  /** Every value the sign-in query sends, but the action's, is an encoder output. */
  lemma SignInValueEncoded(settings: SignInSettings, reply: string, realm: string, wct: string,
                           encode: string -> string, x: Param)
    requires PlainEncoder(encode)
    requires x in SignInParameters(settings, reply, realm, wct, encode)
    ensures Plain(x.value)
  {
    var a := Optional(AuthType, settings.authenticationType, encode);
    var q := Optional(TokenRequest, settings.request, encode);
    var h := Optional(HomeRealm, settings.homeRealm, encode);
    var f := Optional(Freshness, settings.freshness, encode);
    var head := [Param(Action, ActionSignIn), Param(Reply, encode(reply)), Param(Realm, encode(realm))];
    var tail := [Param(CurrentTime, encode(wct))];
    assert x in head || x in a || x in q || x in h || x in f || x in tail;
    if x != Param(Action, ActionSignIn) {
      assert exists v :: x.value == encode(v);
    }
  }

  /** With an encoder that escapes '&' and '=', the sign-in query reads back as its parameters. */
  lemma SignInQueryReadsBack(settings: SignInSettings, reply: string, realm: string, wct: string,
                             encode: string -> string)
    requires PlainEncoder(encode)
    ensures ParseQuery(Join(SignInParameters(settings, reply, realm, wct, encode)))
         == Wire(SignInParameters(settings, reply, realm, wct, encode))
  {
    var ps := SignInParameters(settings, reply, realm, wct, encode);
    forall i | 0 <= i < |ps|
      ensures Plain(ps[i].value)
    {
      SignInValueEncoded(settings, reply, realm, wct, encode, ps[i]);
    }
    ParseJoinRoundTrip(ps);
  }

  /**
   * createSignInRequest: the issuer URL -- literally "null" when no issuer is
   * configured, as Java string concatenation renders it -- then '?', the joined
   * parameters and, when set, '&' and the unencoded query extension.  Every
   * exception on the way becomes one untyped ProcessingException.
   */
  function SignInUrl(settings: SignInSettings, request: HttpRequest, tools: UrlTools, wct: string)
    : (r: Outcome<string>)
    ensures r.Fail? ==> r.failure == Processing(Untyped)
    ensures r.Fail? <==>
      !settings.federationProtocol
      || ResolveReply(settings.reply, request, tools).None?
      || ResolveRealm(settings.realm, request, tools).None?
  {
    if !settings.federationProtocol then Fail(Processing(Untyped))
    else match (ResolveReply(settings.reply, request, tools), ResolveRealm(settings.realm, request, tools))
      case (Some(reply), Some(realm)) =>
        var base := IssuerBase(settings);
        var query := Join(SignInParameters(settings, reply, realm, wct, tools.encode));
        Ok(base + "?" + (query + Extension(settings)))
      case _ => Fail(Processing(Untyped))
  }

  /** The issuer URL as Java string concatenation renders it: "null" when no issuer is set. */
  function IssuerBase(settings: SignInSettings): (r: string)
    ensures IsNullOrEmpty(settings.issuer) ==> r == "null"
    ensures !IsNullOrEmpty(settings.issuer) ==> r == settings.issuer.value
  {
    if IsNullOrEmpty(settings.issuer) then "null" else settings.issuer.value
  }

  /** The sign-in query extension, appended unencoded after '&' when set. */
  function Extension(settings: SignInSettings): (r: string)
    ensures r == [] <==> IsNullOrEmpty(settings.signInQuery)
    ensures r != [] ==> r[0] == '&' && r[1..] == settings.signInQuery.value
  {
    if IsNullOrEmpty(settings.signInQuery) then "" else "&" + settings.signInQuery.value
  }

  /** A query is a prefix of the query of any longer parameter list it starts. */
  lemma {:induction false} JoinPrefix(ps: seq<Param>, k: nat)
    requires 1 <= k <= |ps|
    ensures StartsWith(Join(ps), Join(ps[..k]))
  {
    if k < |ps| {
      var init := ps[..|ps| - 1];
      assert init[..k] == ps[..k];
      JoinPrefix(init, k);
      var j := Join(ps);
      assert j == Join(init) + "&" + Render(ps[|ps| - 1]);
      assert j[..|Join(init)|] == Join(init);
    } else {
      assert ps[..k] == ps;
    }
  }

  lemma SignInUrlValue(settings: SignInSettings, request: HttpRequest, tools: UrlTools, wct: string,
                       reply: string, realm: string)
    requires settings.federationProtocol
    requires ResolveReply(settings.reply, request, tools) == Some(reply)
    requires ResolveRealm(settings.realm, request, tools) == Some(realm)
    ensures SignInUrl(settings, request, tools, wct) ==
      Ok(IssuerBase(settings) + "?" + (Join(SignInParameters(settings, reply, realm, wct, tools.encode)) + Extension(settings)))
  {
  }

  /** The first three rendered parameters, spelled out. */
  lemma HeadText(reply: string, realm: string)
    ensures Render(Param(Action, ActionSignIn)) + "&" + Render(Param(Reply, reply)) + "&" + Render(Param(Realm, realm))
         == "wa=wsignin1.0&wreply=" + reply + "&wtrealm=" + realm
  {
    var a := Render(Param(Action, ActionSignIn));
    assert a == "wa=wsignin1.0";
    assert Render(Param(Reply, reply)) == "wreply=" + reply;
    assert Render(Param(Realm, realm)) == "wtrealm=" + realm;
    assert a + "&" + ("wreply=" + reply) == "wa=wsignin1.0&wreply=" + reply;
    assert a + "&" + ("wreply=" + reply) + "&" + ("wtrealm=" + realm)
        == "wa=wsignin1.0&wreply=" + reply + "&wtrealm=" + realm;
  }

  /** The three parts of `base?query+ext` can be cut back out of it. */
  lemma UrlParts(base: string, query: string, ext: string, head: string)
    ensures var url := base + "?" + (query + ext);
      && url[|base| + 1..|url| - |ext|] == query
      && url[|url| - |ext|..] == ext
      && (StartsWith(query, head) ==> StartsWith(url, base + "?" + head))
  {
    var url := base + "?" + (query + ext);
    assert url[|base| + 1..|url| - |ext|] == query by {
      assert forall i :: 0 <= i < |query| ==> url[|base| + 1 + i] == query[i];
    }
    if StartsWith(query, head) {
      assert forall i :: 0 <= i < |head| ==> url[|base| + 1 + i] == query[i];
    }
  }

  /**
   * A successful sign-in URL opens with the issuer (the text "null" when unset),
   * then "?wa=wsignin1.0&wreply=", the encoded reply, "&wtrealm=" and the encoded
   * realm, and closes with the sign-in query extension.
   */
  lemma SignInUrlShape(settings: SignInSettings, request: HttpRequest, tools: UrlTools, wct: string,
                       reply: string, realm: string)
    requires settings.federationProtocol
    requires ResolveReply(settings.reply, request, tools) == Some(reply)
    requires ResolveRealm(settings.realm, request, tools) == Some(realm)
    ensures var r := SignInUrl(settings, request, tools, wct);
      && r.Ok?
      && StartsWith(r.value, IssuerBase(settings) + "?" + ("wa=wsignin1.0&wreply=" + tools.encode(reply)
                             + "&wtrealm=" + tools.encode(realm)))
      && |Extension(settings)| <= |r.value|
      && r.value[|r.value| - |Extension(settings)|..] == Extension(settings)
  {
    var ps := SignInParameters(settings, reply, realm, wct, tools.encode);
    var head := "wa=wsignin1.0&wreply=" + tools.encode(reply) + "&wtrealm=" + tools.encode(realm);
    JoinPrefix(ps, 3);
    var ps3 := ps[..3];
    var ps2 := ps[..2];
    assert ps3[..2] == ps2 && ps2[..1] == [ps[0]];
    assert Join(ps2) == Render(ps[0]) + "&" + Render(ps[1]);
    assert Join(ps3) == Join(ps2) + "&" + Render(ps[2]);
    HeadText(tools.encode(reply), tools.encode(realm));
    assert Join(ps3) == head;
    var base, query, ext := IssuerBase(settings), Join(ps), Extension(settings);
    SignInUrlValue(settings, request, tools, wct, reply, realm);
    UrlParts(base, query, ext, head);
  }

  /** What lies between the '?' and the extension of a sign-in URL is the joined query. */
  lemma SignInUrlQuery(settings: SignInSettings, request: HttpRequest, tools: UrlTools, wct: string,
                       reply: string, realm: string)
    requires settings.federationProtocol
    requires ResolveReply(settings.reply, request, tools) == Some(reply)
    requires ResolveRealm(settings.realm, request, tools) == Some(realm)
    ensures var url := SignInUrl(settings, request, tools, wct);
      && url.Ok?
      && |IssuerBase(settings)| + 1 + |Extension(settings)| <= |url.value|
      && url.value[|IssuerBase(settings)| + 1..|url.value| - |Extension(settings)|]
         == Join(SignInParameters(settings, reply, realm, wct, tools.encode))
  {
    var ps := SignInParameters(settings, reply, realm, wct, tools.encode);
    SignInUrlValue(settings, request, tools, wct, reply, realm);
    UrlParts(IssuerBase(settings), Join(ps), Extension(settings), "");
  }

  /**
   * With an encoder that escapes '&' and '=', what lies between the '?' and the
   * extension reads back as the sign-in parameters.
   */
  lemma SignInUrlReadsBack(settings: SignInSettings, request: HttpRequest, tools: UrlTools, wct: string,
                           reply: string, realm: string)
    requires PlainEncoder(tools.encode)
    requires settings.federationProtocol
    requires ResolveReply(settings.reply, request, tools) == Some(reply)
    requires ResolveRealm(settings.realm, request, tools) == Some(realm)
    ensures var url := SignInUrl(settings, request, tools, wct);
      && url.Ok?
      && |IssuerBase(settings)| + 1 + |Extension(settings)| <= |url.value|
      && ParseQuery(url.value[|IssuerBase(settings)| + 1..|url.value| - |Extension(settings)|])
         == Wire(SignInParameters(settings, reply, realm, wct, tools.encode))
  {
    SignInUrlQuery(settings, request, tools, wct, reply, realm);
    SignInQueryReadsBack(settings, reply, realm, wct, tools.encode);
  }

  /** Appending an optional parameter to the query under construction. */
  lemma AppendOptional(ps: seq<Param>, opt: seq<Param>)
    requires |ps| > 0 && |opt| <= 1
    ensures Join(ps + opt) == if |opt| == 0 then Join(ps) else Join(ps) + "&" + Render(opt[0])
  {
    if |opt| == 0 {
      assert ps + opt == ps;
    } else {
      assert (ps + opt)[..|ps|] == ps;
    }
  }

  /** Appends `&name=encoded value` to the query under construction when the value is set. */
  method AppendIfSet(sb: string, ghost ps: seq<Param>, name: ParamName, value: Option<string>,
                     encode: string -> string)
    returns (sb': string)
    requires |ps| > 0 && sb == Join(ps)
    ensures sb' == Join(ps + Optional(name, value, encode))
  {
    AppendOptional(ps, Optional(name, value, encode));
    sb' := sb;
    if !IsNullOrEmpty(value) {
      sb' := sb' + "&" + Render(Param(name, encode(value.value)));
    }
  }

  /** createSignInRequest as the source runs it: appending to a builder, one parameter at a time. */
  method CreateSignInRequest(settings: SignInSettings, request: HttpRequest, tools: UrlTools, wct: string)
    returns (result: Outcome<string>)
    ensures result == SignInUrl(settings, request, tools, wct)
  {
    if !settings.federationProtocol {
      return Fail(Processing(Untyped));
    }
    var redirectUrl: Option<string> := None;
    if !IsNullOrEmpty(settings.issuer) {
      redirectUrl := settings.issuer;
    }
    var encode := tools.encode;

    var sb := Render(Param(Action, ActionSignIn));

    var reply := ResolveReply(settings.reply, request, tools);
    if reply.None? {
      return Fail(Processing(Untyped));
    }
    sb := sb + "&" + Render(Param(Reply, encode(reply.value)));

    var realm := ResolveRealm(settings.realm, request, tools);
    if realm.None? {
      return Fail(Processing(Untyped));
    }
    sb := sb + "&" + Render(Param(Realm, encode(realm.value)));
    ghost var ps := [Param(Action, ActionSignIn), Param(Reply, encode(reply.value)), Param(Realm, encode(realm.value))];
    assert ps[..2][..1] == [ps[0]];
    assert Join(ps[..2]) == Render(ps[0]) + "&" + Render(ps[1]);
    assert sb == Join(ps);

    sb := AppendIfSet(sb, ps, AuthType, settings.authenticationType, encode);
    ps := ps + Optional(AuthType, settings.authenticationType, encode);
    sb := AppendIfSet(sb, ps, TokenRequest, settings.request, encode);
    ps := ps + Optional(TokenRequest, settings.request, encode);
    sb := AppendIfSet(sb, ps, HomeRealm, settings.homeRealm, encode);
    ps := ps + Optional(HomeRealm, settings.homeRealm, encode);
    sb := AppendIfSet(sb, ps, Freshness, settings.freshness, encode);
    ps := ps + Optional(Freshness, settings.freshness, encode);

    AppendOptional(ps, [Param(CurrentTime, encode(wct))]);
    sb := sb + "&" + Render(Param(CurrentTime, encode(wct)));
    ps := ps + [Param(CurrentTime, encode(wct))];
    assert ps == SignInParameters(settings, reply.value, realm.value, wct, encode);

    ghost var query := sb;
    if !IsNullOrEmpty(settings.signInQuery) {
      sb := sb + ("&" + settings.signInQuery.value);
    }
    assert sb == query + Extension(settings);
    var url := (if redirectUrl.None? then "null" else redirectUrl.value) + "?" + sb;
    return Ok(url);
  }
}
