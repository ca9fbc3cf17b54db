/**
 * The relying-party side of a WS-Federation 1.2 passive-requestor sign-in
 * (FederationProcessorImpl.processRequest / processSignInRequest).
 *
 * The `wresult` parameter carries a WS-Trust 1.3 RequestSecurityTokenResponse
 * (RSTR), possibly wrapped in an RSTR collection.  The processor unwraps it,
 * scans its children for the Lifetime, RequestedSecurityToken and TokenType
 * elements, checks the lifetime window against the clock, checks the
 * preconditions for decrypting an encrypted token, hands the token to the first
 * configured validator and finally records the token's unique id in the replay
 * cache.  Every rejection is a classified `Failure`.
 *
 * XML parsing, lifetime date parsing, decryption and the validators are
 * collaborators passed in as functions; times are milliseconds since the epoch.
 */
module FederationProcessor {
  import opened Wrappers
  import opened XmlTree
  import opened Processing

  const ActionSignIn: string := "wsignin1.0"
  const WsTrust13Ns: string := "http://docs.oasis-open.org/ws-sx/ws-trust/200512"
  const WsTrust200502Ns: string := "http://schemas.xmlsoap.org/ws/2005/02/trust"
  const XmlEncNs: string := "http://www.w3.org/2001/04/xmlenc#"

  const RstrCollectionName: string := "RequestSecurityTokenResponseCollection"
  const RstrName: string := "RequestSecurityTokenResponse"
  const LifetimeName: string := "Lifetime"
  const RequestedTokenName: string := "RequestedSecurityToken"
  const TokenTypeName: string := "TokenType"
  const EncryptedDataName: string := "EncryptedData"

  /** The parsed wsu:Created and wsu:Expires of an RSTR Lifetime, in milliseconds. */
  datatype LifeTime = LifeTime(created: int, expires: int)

  datatype Claim = Claim(claimType: string, value: string)

  /** What a token validator extracts from a token it accepts. */
  datatype ValidatorResponse = ValidatorResponse(
    uniqueTokenId: Option<string>,
    username: string,
    issuer: string,
    roles: Option<seq<string>>,
    claims: seq<Claim>,
    audience: Option<string>,
    expires: Option<int>)

  /**
   * The outcome of validateAndProcessToken: a response, a ProcessingException of
   * some TYPE, or any other exception.
   */
  datatype ValidationResult =
    | Validated(response: ValidatorResponse)
    | Rejected(kind: ErrorType)
    | Crashed

  datatype TokenValidator = TokenValidator(
    canHandleTokenType: string -> bool,
    canHandleToken: Node -> bool,
    validate: Node -> ValidationResult)

  /** What decrypting an EncryptedData token yields. */
  datatype DecryptionResult =
    /** The protected element of the first data reference. */
    | Decrypted(token: Node)
    /** No result or no data reference: the encrypted element is kept. */
    | NoDataReference
    /** A WSSecurityException. */
    | CryptoFailure

  datatype KeyManager = KeyManager(hasCrypto: bool, keyPassword: Option<string>)

  datatype Config = Config(
    /** The configured protocol is the WS-Federation protocol. */
    federationProtocol: bool,
    detectExpiredTokens: bool,
    detectReplayedTokens: bool,
    /** Seconds, as configured (a BigInteger read through intValue()). */
    maximumClockSkew: int,
    decryptionKey: Option<KeyManager>,
    validators: seq<TokenValidator>)

  datatype Request = Request(wa: Option<string>, wresult: Option<string>)

  /** The collaborators the processor calls but whose internals are not modelled. */
  datatype Environment = Environment(
    readXml: string -> Option<ElementNode>,
    parseLifetime: Node -> Option<LifeTime>,
    decrypt: Node -> DecryptionResult)

  datatype FederationResponse = FederationResponse(
    username: string,
    issuer: string,
    roles: Option<seq<string>>,
    claims: seq<Claim>,
    audience: Option<string>,
    tokenCreated: Option<int>,
    tokenExpires: Option<int>,
    token: Node,
    uniqueTokenId: Option<string>)

  /** Token id -> time to live in seconds (None: inserted without expiry). */
  type ReplayEntries = map<string, Option<int>>

  // ---------------------------------------------------------------------------
  // Envelope root

  /**
   * The RSTR the processor works on: a collection root is replaced by its first
   * child element, and what remains must be named RequestSecurityTokenResponse.
   * An empty collection is rejected as an invalid request.
   */
  function SelectRstr(root: ElementNode): (r: Outcome<ElementNode>)
    ensures r.Ok? ==> r.value.localName == RstrName
    ensures r.Ok? && root.localName != RstrCollectionName ==> r.value == root
    ensures r.Ok? && root.localName == RstrCollectionName ==> Some(r.value) == FirstElement(root.children)
    ensures r.Fail? ==> r.failure == Processing(InvalidRequest)
    ensures r.Fail? <==>
      if root.localName == RstrCollectionName
      then FirstElement(root.children).None? || FirstElement(root.children).value.localName != RstrName
      else root.localName != RstrName
  {
    var el: Option<Node> :=
      if root.localName == RstrCollectionName then FirstElement(root.children) else Some(root);
    match el
    case None => Fail(Processing(InvalidRequest))
    case Some(e) =>
      if e.Element? && e.localName == RstrName then Ok(e) else Fail(Processing(InvalidRequest))
  }

  /**
   * The root selection as the source writes it: for a collection without any
   * child element, `getFirstElement` yields null and reading its local name
   * throws a NullPointerException.
   */
  function SelectRstrAsWritten(root: ElementNode): (r: Outcome<ElementNode>)
    ensures root.localName == RstrCollectionName && FirstElement(root.children).None? ==>
      r == Fail(NullPointer)
    ensures !(root.localName == RstrCollectionName && FirstElement(root.children).None?) ==>
      r == SelectRstr(root)
  {
    if root.localName == RstrCollectionName then
      match FirstElement(root.children)
      case None => Fail(NullPointer)
      case Some(e) =>
        if e.localName == RstrName then Ok(e) else Fail(Processing(InvalidRequest))
    else if root.localName == RstrName then Ok(root)
    else Fail(Processing(InvalidRequest))
  }

  /** The empty collection that separates the source's root handling from the intended one. */
  lemma EmptyCollectionThrowsNullPointer()
    ensures SelectRstrAsWritten(Element(RstrCollectionName, Some(WsTrust13Ns), [])) == Fail(NullPointer)
    ensures SelectRstr(Element(RstrCollectionName, Some(WsTrust13Ns), [])) == Fail(Processing(InvalidRequest))
  {
  }

  // ---------------------------------------------------------------------------
  // Scanning the RSTR's children

  predicate IsTrustNamespace(ns: Option<string>)
  {
    ns == Some(WsTrust13Ns) || ns == Some(WsTrust200502Ns)
  }

  /** An element in either WS-Trust namespace with the given local name. */
  predicate IsTrustElement(n: Node, name: string)
  {
    n.Element? && IsTrustNamespace(n.namespaceUri) && n.localName == name
  }

  datatype EnvelopeScan = EnvelopeScan(
    requestedToken: Option<Node>,
    lifetime: Option<Node>,
    tokenType: Option<string>)

  /** One turn of the scan loop; elements outside the WS-Trust namespaces are skipped. */
  function ScanStep(acc: EnvelopeScan, el: Node): (r: EnvelopeScan)
    ensures !(el.Element? && IsTrustNamespace(el.namespaceUri)) ==> r == acc
    ensures r.lifetime != acc.lifetime ==> IsTrustElement(el, LifetimeName) && r.lifetime == Some(el)
    ensures r.requestedToken != acc.requestedToken ==> IsTrustElement(el, RequestedTokenName)
    ensures r.tokenType != acc.tokenType ==> IsTrustElement(el, TokenTypeName)
    ensures r.requestedToken.Some? ==> r.requestedToken.value.Element? || r.requestedToken == acc.requestedToken
  {
    if el.Element? && IsTrustNamespace(el.namespaceUri) then
      if el.localName == LifetimeName then acc.(lifetime := Some(el))
      else if el.localName == RequestedTokenName then acc.(requestedToken := FirstElement(el.children))
      else if el.localName == TokenTypeName then acc.(tokenType := Content(el))
      else acc
    else acc
  }

  /** The scan of a prefix of the RSTR's children, as the loop builds it. */
  function Scan(children: seq<Node>): (r: EnvelopeScan)
    ensures r.lifetime.Some? ==> r.lifetime.value in children && IsTrustElement(r.lifetime.value, LifetimeName)
    ensures r.requestedToken.Some? ==> r.requestedToken.value.Element?
    ensures |children| == 0 ==> r == EnvelopeScan(None, None, None)
  {
    if |children| == 0 then EnvelopeScan(None, None, None)
    else ScanStep(Scan(children[..|children| - 1]), children[|children| - 1])
  }

  /** The index of the last WS-Trust child with the given name. */
  function LastTrustChild(children: seq<Node>, name: string): (r: Option<nat>)
    ensures r.None? ==> forall j :: 0 <= j < |children| ==> !IsTrustElement(children[j], name)
    ensures r.Some? ==>
      && r.value < |children|
      && IsTrustElement(children[r.value], name)
      && forall j :: r.value < j < |children| ==> !IsTrustElement(children[j], name)
  {
    if |children| == 0 then None
    else if IsTrustElement(children[|children| - 1], name) then Some(|children| - 1)
    else LastTrustChild(children[..|children| - 1], name)
  }

  /**
   * A later Lifetime, RequestedSecurityToken or TokenType overwrites an earlier
   * one: each field of the scan comes from the last WS-Trust child of that name,
   * and is absent when there is none.
   */
  lemma ScanKeepsLastOfEach(children: seq<Node>)
    ensures Scan(children).lifetime ==
      (match LastTrustChild(children, LifetimeName)
       case None => None
       case Some(i) => Some(children[i]))
    ensures Scan(children).requestedToken ==
      (match LastTrustChild(children, RequestedTokenName)
       case None => None
       case Some(i) => FirstElement(children[i].children))
    ensures Scan(children).tokenType ==
      (match LastTrustChild(children, TokenTypeName)
       case None => None
       case Some(i) => Content(children[i]))
  {
    ScanKeepsLastLifetime(children);
    ScanKeepsLastToken(children);
    ScanKeepsLastTokenType(children);
  }

  lemma {:induction false} ScanKeepsLastLifetime(children: seq<Node>)
    ensures Scan(children).lifetime ==
      (match LastTrustChild(children, LifetimeName)
       case None => None
       case Some(i) => Some(children[i]))
  {
    if |children| > 0 {
      var prefix := children[..|children| - 1];
      ScanKeepsLastLifetime(prefix);
      assert forall j :: 0 <= j < |prefix| ==> prefix[j] == children[j];
    }
  }

  lemma {:induction false} ScanKeepsLastToken(children: seq<Node>)
    ensures Scan(children).requestedToken ==
      (match LastTrustChild(children, RequestedTokenName)
       case None => None
       case Some(i) => FirstElement(children[i].children))
  {
    if |children| > 0 {
      var prefix := children[..|children| - 1];
      ScanKeepsLastToken(prefix);
      assert forall j :: 0 <= j < |prefix| ==> prefix[j] == children[j];
    }
  }

  lemma {:induction false} ScanKeepsLastTokenType(children: seq<Node>)
    ensures Scan(children).tokenType ==
      (match LastTrustChild(children, TokenTypeName)
       case None => None
       case Some(i) => Content(children[i]))
  {
    if |children| > 0 {
      var prefix := children[..|children| - 1];
      ScanKeepsLastTokenType(prefix);
      var last := children[|children| - 1];
      if IsTrustElement(last, TokenTypeName) {
        assert Scan(children).tokenType == Content(last);
      } else {
        assert forall j :: 0 <= j < |prefix| ==> prefix[j] == children[j];
        assert LastTrustChild(children, TokenTypeName) == LastTrustChild(prefix, TokenTypeName);
        assert Scan(children).tokenType == Scan(prefix).tokenType;
      }
    }
  }

  // ---------------------------------------------------------------------------
  // Lifetime window

  /** BigInteger.intValue(): the low 32 bits, read as a signed integer. */
  function JavaIntValue(x: int): (r: int)
    ensures -0x8000_0000 <= r < 0x8000_0000
    ensures -0x8000_0000 <= x < 0x8000_0000 ==> r == x
    ensures (r - x) % 0x1_0000_0000 == 0
  {
    var low := x % 0x1_0000_0000;
    if low < 0x8000_0000 then low else low - 0x1_0000_0000
  }

  /**
   * The RSTR lifetime check, made only when expired-token detection is on and a
   * Lifetime was present: expiry is checked first, then "not yet valid" with the
   * clock skew (seconds) added to the current time; both comparisons are strict.
   */
  function CheckLifetime(detectExpired: bool, lifetime: Option<LifeTime>, now: int, maxClockSkew: int)
    : (r: Option<ErrorType>)
    ensures r == Some(TokenExpired) <==>
      detectExpired && lifetime.Some? && now > lifetime.value.expires
    ensures r == Some(TokenInvalid) <==>
      && detectExpired && lifetime.Some? && now <= lifetime.value.expires
      && lifetime.value.created > now + JavaIntValue(maxClockSkew) * 1000
    ensures r.None? || r == Some(TokenExpired) || r == Some(TokenInvalid)
  {
    if detectExpired && lifetime.Some? then
      if now > lifetime.value.expires then Some(TokenExpired)
      else if lifetime.value.created > now + JavaIntValue(maxClockSkew) * 1000 then Some(TokenInvalid)
      else None
    else None
  }

  /** A larger clock skew never turns an accepted lifetime into a rejected one. */
  lemma LargerSkewStillAccepts(detectExpired: bool, lifetime: Option<LifeTime>, now: int, skew: int, larger: int)
    requires 0 <= skew <= larger < 0x8000_0000
    requires CheckLifetime(detectExpired, lifetime, now, skew).None?
    ensures CheckLifetime(detectExpired, lifetime, now, larger).None?
  {
  }

  /**
   * A token that is not yet valid but unexpired is accepted once the skew covers
   * the gap between its creation and now.
   */
  lemma SkewCoveringGapAccepts(lifetime: LifeTime, now: int, skew: int)
    requires now <= lifetime.expires
    requires 0 <= skew < 0x8000_0000 && lifetime.created <= now + skew * 1000
    ensures CheckLifetime(true, Some(lifetime), now, skew).None?
  {
  }

  /**
   * The clock-skew scenario of the SAML tests: not valid before now + 30 s,
   * valid until now + 300 s, maximum clock skew 60 s: accepted.
   */
  lemma ClockSkewRangeExample(now: int)
    ensures CheckLifetime(true, Some(LifeTime(now + 30_000, now + 300_000)), now, 60).None?
    ensures CheckLifetime(true, Some(LifeTime(now + 30_000, now + 300_000)), now, 0) == Some(TokenInvalid)
  {
  }

  // ---------------------------------------------------------------------------
  // Encrypted tokens

  predicate IsEncryptedData(token: Node)
  {
    token.Element? && token.localName == EncryptedDataName && token.namespaceUri == Some(XmlEncNs)
  }

  /** The decryption preconditions: a key manager with a Crypto instance and a key password. */
  predicate CanDecrypt(key: Option<KeyManager>)
  {
    key.Some? && key.value.hasCrypto && key.value.keyPassword.Some?
  }

  /**
   * The token handed to the validators: an EncryptedData token is decrypted, and
   * is rejected as a bad request, before any decryption, when the decryption
   * crypto or the key password is missing.
   */
  function DecryptToken(token: Node, key: Option<KeyManager>, decrypt: Node -> DecryptionResult)
    : (r: Outcome<Node>)
    ensures !IsEncryptedData(token) ==> r == Ok(token)
    ensures IsEncryptedData(token) && !CanDecrypt(key) ==> r == Fail(Processing(BadRequest))
    ensures IsEncryptedData(token) && CanDecrypt(key) ==>
      match decrypt(token)
      case Decrypted(t) => r == Ok(t)
      case NoDataReference => r == Ok(token)
      case CryptoFailure => r == Fail(Processing(TokenInvalid))
  {
    if !IsEncryptedData(token) then Ok(token)
    else if key.None? || !key.value.hasCrypto then Fail(Processing(BadRequest))
    else if key.value.keyPassword.None? then Fail(Processing(BadRequest))
    else match decrypt(token)
      case Decrypted(t) => Ok(t)
      case NoDataReference => Ok(token)
      case CryptoFailure => Fail(Processing(TokenInvalid))
  }

  // ---------------------------------------------------------------------------
  // Validator dispatch

  /**
   * Only the first validator is consulted, by token type when one was declared and
   * by the token's shape otherwise.  If it cannot handle the token the request is
   * bad, with no fall-through; other exceptions it throws become TOKEN_INVALID.
   * With no validator at all the response stays null and is dereferenced.
   */
  function Dispatch(validators: seq<TokenValidator>, tokenType: Option<string>, token: Node)
    : (r: Outcome<ValidatorResponse>)
    ensures |validators| == 0 ==> r == Fail(NullPointer)
    ensures |validators| > 0 ==>
      var v := validators[0];
      var canHandle := if tokenType.Some? then v.canHandleTokenType(tokenType.value) else v.canHandleToken(token);
      && (!canHandle ==> r == Fail(Processing(BadRequest)))
      && (canHandle ==>
            match v.validate(token)
            case Validated(resp) => r == Ok(resp)
            case Rejected(kind) => r == Fail(Processing(kind))
            case Crashed => r == Fail(Processing(TokenInvalid)))
  {
    if |validators| == 0 then Fail(NullPointer)
    else
      var v := validators[0];
      var canHandle := if tokenType.Some? then v.canHandleTokenType(tokenType.value) else v.canHandleToken(token);
      if !canHandle then Fail(Processing(BadRequest))
      else match v.validate(token)
        case Validated(resp) => Ok(resp)
        case Rejected(kind) => Fail(Processing(kind))
        case Crashed => Fail(Processing(TokenInvalid))
  }

  /** Later validators are never consulted, even when they could handle the token. */
  lemma OnlyFirstValidatorConsulted(first: TokenValidator, rest: seq<TokenValidator>, rest': seq<TokenValidator>,
                                    tokenType: Option<string>, token: Node)
    ensures Dispatch([first] + rest, tokenType, token) == Dispatch([first] + rest', tokenType, token)
  {
  }

  // ---------------------------------------------------------------------------
  // Replay cache

  /** Java's long division by 1000, truncating toward zero: milliseconds to seconds. */
  function MillisToSeconds(ms: int): (s: int)
    ensures ms >= 0 ==> s * 1000 <= ms < s * 1000 + 1000
    ensures ms < 0 ==> s * 1000 - 1000 < ms <= s * 1000
  {
    if ms >= 0 then ms / 1000 else -((-ms) / 1000)
  }

  /** The time to live of a fresh replay-cache entry: lifetime expiry first, validator expiry second. */
  function ReplayTtl(lifetime: Option<LifeTime>, validatorExpires: Option<int>, now: int): (ttl: Option<int>)
    ensures lifetime.Some? ==> ttl == Some(MillisToSeconds(lifetime.value.expires - now))
    ensures lifetime.None? ==> ttl == if validatorExpires.Some? then Some(MillisToSeconds(validatorExpires.value - now)) else None
  {
    var expires := if lifetime.Some? then Some(lifetime.value.expires) else validatorExpires;
    if expires.Some? then Some(MillisToSeconds(expires.value - now)) else None
  }

  /**
   * The replay check-then-insert, made only when replay detection is on and the
   * token has a unique id: a cached id is a replay and leaves the cache as it was;
   * otherwise exactly that id is inserted.
   */
  function RecordToken(id: Option<string>, detectReplayed: bool, ttl: Option<int>, cache: ReplayEntries)
    : (r: Outcome<ReplayEntries>)
    ensures r.Fail? <==> detectReplayed && id.Some? && id.value in cache
    ensures r.Fail? ==> r.failure == Processing(TokenReplay)
    ensures r.Ok? && detectReplayed && id.Some? ==>
      && r.value.Keys == cache.Keys + {id.value}
      && r.value[id.value] == ttl
      && forall k :: k in cache ==> r.value[k] == cache[k]
    ensures r.Ok? && !(detectReplayed && id.Some?) ==> r.value == cache
  {
    if id.Some? && detectReplayed then
      if id.value !in cache then Ok(cache[id.value := ttl])
      else Fail(Processing(TokenReplay))
    else Ok(cache)
  }

  // ---------------------------------------------------------------------------
  // The pipeline

  /** Everything the sign-in establishes before the replay cache is consulted. */
  datatype Validation = Validation(
    response: ValidatorResponse,
    lifetime: Option<LifeTime>,
    token: Node)

  function ParseLifetime(lifetimeElem: Option<Node>, parse: Node -> Option<LifeTime>): (r: Outcome<Option<LifeTime>>)
    ensures lifetimeElem.None? ==> r == Ok(None)
    ensures lifetimeElem.Some? && parse(lifetimeElem.value).None? ==> r == Fail(Processing(BadRequest))
    ensures lifetimeElem.Some? && parse(lifetimeElem.value).Some? ==> r == Ok(parse(lifetimeElem.value))
  {
    match lifetimeElem
    case None => Ok(None)
    case Some(e) =>
      match parse(e)
      case None => Fail(Processing(BadRequest))
      case Some(lt) => Ok(Some(lt))
  }

  /** The stages of processSignInRequest that do not touch the replay cache, in their order. */
  function ValidateWresult(wresult: string, config: Config, env: Environment, now: int)
    : (r: Outcome<Validation>)
    ensures env.readXml(wresult).None? ==> r == Fail(Processing(InvalidRequest))
    ensures env.readXml(wresult).Some? && SelectRstr(env.readXml(wresult).value).Fail? ==>
      r == Fail(Processing(InvalidRequest))
    ensures (env.readXml(wresult).Some? && SelectRstr(env.readXml(wresult).value).Ok? &&
             Scan(SelectRstr(env.readXml(wresult).value).value.children).requestedToken.None?)
      ==> r == Fail(Processing(BadRequest))
    ensures r.Fail? ==> r.failure.Processing? || (r.failure == NullPointer && |config.validators| == 0)
    ensures r.Ok? ==> CheckLifetime(config.detectExpiredTokens, r.value.lifetime, now, config.maximumClockSkew).None?
    ensures r.Ok? ==> |config.validators| > 0 && !(IsEncryptedData(r.value.token) && !CanDecrypt(config.decryptionKey))
  {
    match env.readXml(wresult)
    case None => Fail(Processing(InvalidRequest))
    case Some(root) =>
      var rstr :- SelectRstr(root);
      var scan := Scan(rstr.children);
      if scan.requestedToken.None? then Fail(Processing(BadRequest))
      else
        var lifetime :- ParseLifetime(scan.lifetime, env.parseLifetime);
        match CheckLifetime(config.detectExpiredTokens, lifetime, now, config.maximumClockSkew)
        case Some(kind) => Fail(Processing(kind))
        case None =>
          var token :- DecryptToken(scan.requestedToken.value, config.decryptionKey, env.decrypt);
          var response :- Dispatch(config.validators, scan.tokenType, token);
          Ok(Validation(response, lifetime, token))
  }

  function ResponseOf(v: Validation): FederationResponse
  {
    FederationResponse(
      v.response.username, v.response.issuer, v.response.roles, v.response.claims,
      v.response.audience,
      if v.lifetime.Some? then Some(v.lifetime.value.created) else None,
      if v.lifetime.Some? then Some(v.lifetime.value.expires) else None,
      v.token, v.response.uniqueTokenId)
  }

  /**
   * processSignInRequest: the result and the replay cache afterwards.  A failed
   * sign-in leaves the cache unchanged; a successful one adds at most its own id.
   */
  function SignIn(request: Request, config: Config, env: Environment, now: int, cache: ReplayEntries)
    : (r: (Outcome<FederationResponse>, ReplayEntries))
    ensures r.0.Fail? ==> r.1 == cache
    ensures r.1 == cache || (
      && r.0.Ok? && config.detectReplayedTokens && r.0.value.uniqueTokenId.Some?
      && r.0.value.uniqueTokenId.value !in cache
      && r.1.Keys == cache.Keys + {r.0.value.uniqueTokenId.value}
      && forall k :: k in cache ==> r.1[k] == cache[k])
  {
    if request.wresult.None? then (Fail(NullPointer), cache)
    else match ValidateWresult(request.wresult.value, config, env, now)
      case Fail(f) => (Fail(f), cache)
      case Ok(v) =>
        var ttl := ReplayTtl(v.lifetime, v.response.expires, now);
        match RecordToken(v.response.uniqueTokenId, config.detectReplayedTokens, ttl, cache)
        case Fail(f) => (Fail(f), cache)
        case Ok(cache') => (Ok(ResponseOf(v)), cache')
  }

  /**
   * processRequest: only the sign-in action reaches sign-in processing; any other
   * action is an invalid request, and a non-federation protocol is an illegal state.
   */
  function Process(request: Request, config: Config, env: Environment, now: int, cache: ReplayEntries)
    : (r: (Outcome<FederationResponse>, ReplayEntries))
    ensures !config.federationProtocol ==> r == (Fail(IllegalState), cache)
    ensures config.federationProtocol && request.wa != Some(ActionSignIn) ==>
      r == (Fail(Processing(InvalidRequest)), cache)
    ensures config.federationProtocol && request.wa == Some(ActionSignIn) ==>
      r == SignIn(request, config, env, now, cache)
  {
    if !config.federationProtocol then (Fail(IllegalState), cache)
    else if request.wa == Some(ActionSignIn) then SignIn(request, config, env, now, cache)
    else (Fail(Processing(InvalidRequest)), cache)
  }

  // ---------------------------------------------------------------------------
  // Properties of the whole sign-in

  /**
   * An expired lifetime is rejected with TOKEN_EXPIRED whatever the token is and
   * whatever the validators would say, once the envelope itself is well formed.
   */
  lemma ExpiredLifetimeRejected(request: Request, config: Config, env: Environment, now: int,
                                cache: ReplayEntries, rstr: ElementNode, lt: LifeTime)
    requires request.wresult.Some?
    requires env.readXml(request.wresult.value) == Some(rstr) && rstr.localName == RstrName
    requires Scan(rstr.children).requestedToken.Some?
    requires Scan(rstr.children).lifetime.Some?
    requires env.parseLifetime(Scan(rstr.children).lifetime.value) == Some(lt)
    requires config.detectExpiredTokens && now > lt.expires
    ensures SignIn(request, config, env, now, cache) == (Fail(Processing(TokenExpired)), cache)
  {
  }

  /**
   * Replaying a token that was accepted with a unique id fails: at the same time
   * with TOKEN_REPLAY, at any other time with some failure, and never changes the
   * cache again.
   */
  lemma SecondUseIsReplay(request: Request, config: Config, env: Environment,
                                             now: int, later: int, cache: ReplayEntries)
    requires config.detectReplayedTokens
    requires SignIn(request, config, env, now, cache).0.Ok?
    requires SignIn(request, config, env, now, cache).0.value.uniqueTokenId.Some?
    ensures var cache' := SignIn(request, config, env, now, cache).1;
      && SignIn(request, config, env, now, cache') == (Fail(Processing(TokenReplay)), cache')
      && SignIn(request, config, env, later, cache').0.Fail?
      && SignIn(request, config, env, later, cache').1 == cache'
  {
  }

  /**
   * The clock only decides whether the lifetime check passes: once it passes at
   * two times, the rest of the validation is the same.
   */
  lemma ValidationIgnoresClockOnceAccepted(wresult: string, config: Config, env: Environment, t1: int, t2: int)
    requires ValidateWresult(wresult, config, env, t1).Ok?
    requires ValidateWresult(wresult, config, env, t2).Ok?
    ensures ValidateWresult(wresult, config, env, t1) == ValidateWresult(wresult, config, env, t2)
  {
  }

  /** With replay detection off the cache is never touched. */
  lemma NoReplayDetectionLeavesCache(request: Request, config: Config, env: Environment, now: int, cache: ReplayEntries)
    requires !config.detectReplayedTokens
    ensures SignIn(request, config, env, now, cache).1 == cache
  {
  }

  /**
   * An RSTR without a RequestedSecurityToken child in a WS-Trust namespace yields
   * no token, and the sign-in rejects it as BAD_REQUEST with the cache unchanged.
   */
  lemma NoRequestedTokenChild(request: Request, config: Config, env: Environment, now: int,
                              cache: ReplayEntries, root: ElementNode, rstr: ElementNode)
    requires request.wresult.Some? && env.readXml(request.wresult.value) == Some(root)
    requires SelectRstr(root) == Ok(rstr)
    requires forall j :: 0 <= j < |rstr.children| ==> !IsTrustElement(rstr.children[j], RequestedTokenName)
    ensures Scan(rstr.children).requestedToken.None?
    ensures SignIn(request, config, env, now, cache) == (Fail(Processing(BadRequest)), cache)
  {
    ScanKeepsLastToken(rstr.children);
  }

  /**
   * An encrypted token with no decryption crypto or no key password is a bad
   * request whatever the decryption would have produced: decryption is never tried.
   */
  lemma MissingDecryptionKeyIsBadRequest(request: Request, config: Config, env: Environment,
                                         decrypt': Node -> DecryptionResult, now: int, cache: ReplayEntries,
                                         rstr: ElementNode)
    requires request.wresult.Some?
    requires env.readXml(request.wresult.value) == Some(rstr) && rstr.localName == RstrName
    requires Scan(rstr.children).requestedToken.Some?
    requires IsEncryptedData(Scan(rstr.children).requestedToken.value)
    requires !CanDecrypt(config.decryptionKey)
    ensures var r := SignIn(request, config, env, now, cache);
      r.1 == cache && r.0.Fail? && r.0.failure.Processing? &&
      r.0.failure.kind in {BadRequest, TokenExpired, TokenInvalid}
    ensures var lifetime := ParseLifetime(Scan(rstr.children).lifetime, env.parseLifetime);
      lifetime.Ok? && CheckLifetime(config.detectExpiredTokens, lifetime.value, now, config.maximumClockSkew).None?
      ==> SignIn(request, config, env, now, cache).0 == Fail(Processing(BadRequest))
    ensures Scan(rstr.children).lifetime.None? ==> SignIn(request, config, env, now, cache).0 == Fail(Processing(BadRequest))
    ensures SignIn(request, config, env, now, cache)
         == SignIn(request, config, env.(decrypt := decrypt'), now, cache)
  {
  }

  // ---------------------------------------------------------------------------
  // The processor, step by step over its replay cache

  /** The token replay cache: ids of tokens already used to sign in. */
  class TokenReplayCache {
    var entries: ReplayEntries

    constructor ()
      ensures entries == map[]
    {
      entries := map[];
    }

    method GetId(id: string) returns (cached: bool)
      ensures cached <==> id in entries
    {
      cached := id in entries;
    }

    method PutId(id: string, timeToLive: int)
      modifies this
      ensures entries == old(entries)[id := Some(timeToLive)]
    {
      entries := entries[id := Some(timeToLive)];
    }

    method PutIdWithoutExpiry(id: string)
      modifies this
      ensures entries == old(entries)[id := None]
    {
      entries := entries[id := None];
    }
  }

  /** processSignInRequest, step by step: the scan loop and the check-then-insert on the cache. */
  method ProcessSignInRequest(request: Request, config: Config, env: Environment, now: int,
                              cache: TokenReplayCache)
    returns (result: Outcome<FederationResponse>)
    modifies cache
    ensures (result, cache.entries) == SignIn(request, config, env, now, old(cache.entries))
  {
    if request.wresult.None? {
      return Fail(NullPointer);
    }
    var parsed := env.readXml(request.wresult.value);
    if parsed.None? {
      return Fail(Processing(InvalidRequest));
    }
    var selected := SelectRstr(parsed.value);
    if selected.Fail? {
      return Fail(selected.failure);
    }
    var children := selected.value.children;

    var rst: Option<Node> := None;
    var lifetimeElem: Option<Node> := None;
    var tt: Option<string> := None;
    var i := 0;
    while i < |children|
      invariant 0 <= i <= |children|
      invariant EnvelopeScan(rst, lifetimeElem, tt) == Scan(children[..i])
    {
      var el := children[i];
      if el.Element? && IsTrustNamespace(el.namespaceUri) {
        if el.localName == LifetimeName {
          lifetimeElem := Some(el);
        } else if el.localName == RequestedTokenName {
          rst := FirstElement(el.children);
        } else if el.localName == TokenTypeName {
          tt := Content(el);
        }
      }
      assert children[..i + 1][..i] == children[..i];
      i := i + 1;
    }
    assert children[..i] == children;
    if rst.None? {
      return Fail(Processing(BadRequest));
    }

    var lifetime := ParseLifetime(lifetimeElem, env.parseLifetime);
    if lifetime.Fail? {
      return Fail(lifetime.failure);
    }
    var expiry := CheckLifetime(config.detectExpiredTokens, lifetime.value, now, config.maximumClockSkew);
    if expiry.Some? {
      return Fail(Processing(expiry.value));
    }
    var token := DecryptToken(rst.value, config.decryptionKey, env.decrypt);
    if token.Fail? {
      return Fail(token.failure);
    }
    var validated := Dispatch(config.validators, tt, token.value);
    if validated.Fail? {
      return Fail(validated.failure);
    }
    var response := validated.value;

    if response.uniqueTokenId.Some? && config.detectReplayedTokens {
      var id := response.uniqueTokenId.value;
      var cached := cache.GetId(id);
      if !cached {
        var ttl := ReplayTtl(lifetime.value, response.expires, now);
        if ttl.Some? {
          cache.PutId(id, ttl.value);
        } else {
          cache.PutIdWithoutExpiry(id);
        }
      } else {
        return Fail(Processing(TokenReplay));
      }
    }
    return Ok(ResponseOf(Validation(response, lifetime.value, token.value)));
  }

  /** processRequest: the action gate in front of processSignInRequest. */
  method ProcessRequest(request: Request, config: Config, env: Environment, now: int,
                        cache: TokenReplayCache)
    returns (result: Outcome<FederationResponse>)
    modifies cache
    ensures (result, cache.entries) == Process(request, config, env, now, old(cache.entries))
  {
    if !config.federationProtocol {
      return Fail(IllegalState);
    }
    if request.wa == Some(ActionSignIn) {
      result := ProcessSignInRequest(request, config, env, now, cache);
    } else {
      return Fail(Processing(InvalidRequest));
    }
  }
}
