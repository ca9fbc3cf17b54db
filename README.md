# Apache CXF Fediz relying party, modelled in Dafny

This project models the core of the relying-party (service provider) side of
Apache CXF Fediz.

- It models how a WS-Federation sign-in response (`wresult`) is unpacked, checked and accepted:
  - the `RequestSecurityTokenResponse` envelope;
  - the lifetime and clock-skew check;
  - the decryption preconditions;
  - dispatch to the first token validator;
  - the replay cache.
- It models how the sign-in redirect URL to the IdP is assembled.
- It models how the JAX-RS redirect-binding filter classifies requests and keeps its request and response states.
- It models how the logout handler routes and answers logout requests.
- It models the document-order element search used by the SAML tests.

Modules, one per file:

- `Wrappers` (`wrappers.dfy`): `Option` stands for a Java reference that may be null.
- `Processing` (`processing.dfy`): the `ProcessingException` types, plus the runtime exceptions that escape (`IllegalStateException`, `NullPointerException`), as an `Outcome`.
- `XmlTree` (`xml_tree.dfy`): an element tree with local names, namespaces and text, with `getFirstElement` and `getContent`.
- `FederationProcessor` (`federation_processor.dfy`):
  - `processRequest` and `processSignInRequest`, as a function (`SignIn`) and as a method with the envelope scan loop (`ProcessSignInRequest`);
  - the replay cache as a class whose map the method updates.
- `SignInRequest` (`sign_in_request.dfy`):
  - `createSignInRequest`, as a function (`SignInUrl`) and as a method that appends to the query step by step;
  - `extractFullContextPath`;
  - a parser for the query it emits, used to state that the query reads back.
- `RedirectBindingFilter` (`redirect_binding_filter.dfy`):
  - the filter as a function of the request and the state store (`FilterSpec`), and as a method over a `StateManager` class;
  - the audience loop.
- `LogoutHandler` (`logout_handler.dfy`):
  - `canHandleRequest` and the `handleRequest` dispatch;
  - `signout` and `signoutCleanup`, as methods on the servlet exchange they change.
- `DomSearch` (`dom_search.dfy`):
  - `findElement`, as a loop over a DOM whose nodes are numbered in document order, with child, sibling and parent links (`Null` is -1);
  - a ghost array of subtree ends that states what the loop visits.

Clocks, UUIDs, XML parsing, date parsing, URL encoding and decoding, `java.net.URL` validity, decryption, and the token validators are parameters of the model:

- `now` is an integer number of milliseconds.
- Each of the others is a function value or a given result.

Where the project's documentation and the code differ, the model follows the code (the one place where the model departs from the code is listed under "## Findings"):

- Only the first configured token validator is consulted. If it cannot handle the token, the request fails with `BAD_REQUEST`, even when a later validator could handle it.
- The replay-cache time-to-live is `(expires - now) / 1000`, truncated toward zero and not clamped at zero.
- Every exception inside the redirect-binding filter's `try` block becomes an internal server error. That includes the `BadRequest`, `Forbidden` and `NotAuthorized` exceptions the filter itself throws.
- After the audience check, the filter casts the configured protocol to `SAMLProtocol`. A WS-Federation sign-in response therefore always ends in an internal server error (`FederationNeverSignsIn`).
- With a null or empty issuer, the sign-in URL starts with the text `null?` (Java string concatenation of a null reference).

## Model

| member | source | states |
|---|---|---|
| XmlTree.FirstElement | plugins/core/src/main/java/org/apache/cxf/fediz/core/FederationProcessorImpl.java:128-135 | the first element child: none exactly when no child is an element; non-element children before it are skipped |
| XmlTree.Content | plugins/core/src/main/java/org/apache/cxf/fediz/core/FederationProcessorImpl.java:148-149 | an element has content exactly when some child is text; the content is the data of all its text children, joined in document order and trimmed |
| XmlTree.Trim | plugins/core/src/main/java/org/apache/cxf/fediz/core/FederationProcessorImpl.java:148-149 | String.trim: the result neither starts nor ends with a character up to U+0020, and it is the input with only such characters cut from its two ends |
| XmlTree.TrimKeepsTrimmed | plugins/core/src/main/java/org/apache/cxf/fediz/core/FederationProcessorImpl.java:148-149 | a value without surrounding white space is its own trim |
| XmlTree.SingleTextContent | plugins/core/src/main/java/org/apache/cxf/fediz/core/FederationProcessorImpl.java:148-149 | an element with a single text child (whatever elements surround it) has that child's data, trimmed, as its content |
| FederationProcessor.SelectRstr | plugins/core/src/main/java/org/apache/cxf/fediz/core/FederationProcessorImpl.java:128-134 | a collection root is replaced by its first element child; the result is always an RSTR element; failure, always INVALID_REQUEST, happens exactly when the (unwrapped) root is not an RSTR or the collection has no element child |
| FederationProcessor.SelectRstrAsWritten | plugins/core/src/main/java/org/apache/cxf/fediz/core/FederationProcessorImpl.java:128-131 | as written: an RSTR collection without an element child dereferences null (NullPointerException); otherwise it agrees with the corrected selection |
| FederationProcessor.EmptyCollectionThrowsNullPointer | plugins/core/src/main/java/org/apache/cxf/fediz/core/FederationProcessorImpl.java:128-134 | the empty WS-Trust 1.3 collection makes the code as written throw NullPointerException, while the corrected selection answers INVALID_REQUEST |
| FederationProcessor.ScanStep | plugins/core/src/main/java/org/apache/cxf/fediz/core/FederationProcessorImpl.java:139-151 | a child outside the WS-Trust namespaces changes nothing; the lifetime changes only for a Lifetime child, which it becomes; the token only for a RequestedSecurityToken child (and then becomes an element or none); the token type only for a TokenType child |
| FederationProcessor.Scan | plugins/core/src/main/java/org/apache/cxf/fediz/core/FederationProcessorImpl.java:133-152 | the lifetime found is one of the children and a WS-Trust Lifetime element; the token found is an element; no children find nothing |
| FederationProcessor.LastTrustChild | plugins/core/src/main/java/org/apache/cxf/fediz/core/FederationProcessorImpl.java:140-153 | the index of the last child in a WS-Trust namespace with the given local name, or none when no child qualifies |
| FederationProcessor.ScanKeepsLastOfEach | plugins/core/src/main/java/org/apache/cxf/fediz/core/FederationProcessorImpl.java:140-153 | the scan keeps, for Lifetime, RequestedSecurityToken and TokenType each, what the LAST qualifying child gives (the element, its first element child, its text content) and nothing when none qualifies |
| FederationProcessor.NoRequestedTokenChild | plugins/core/src/main/java/org/apache/cxf/fediz/core/FederationProcessorImpl.java:140-164 | when the RSTR chosen from the parsed wresult has no RequestedSecurityToken child in a trust namespace, the scan finds no token and the sign-in fails with BAD_REQUEST, leaving the replay cache unchanged |
| FederationProcessor.JavaIntValue | plugins/core/src/main/java/org/apache/cxf/fediz/core/FederationProcessorImpl.java:178 | BigInteger.intValue: the 32-bit signed value congruent to the input modulo 2^32, the identity on the int range |
| FederationProcessor.CheckLifetime | plugins/core/src/main/java/org/apache/cxf/fediz/core/FederationProcessorImpl.java:170-183 | TOKEN_EXPIRED exactly when detection is on, a lifetime is present and now is after expires; TOKEN_INVALID exactly when it is not expired and created is after now plus the skew (as a 32-bit int) in seconds; otherwise accepted |
| FederationProcessor.LargerSkewStillAccepts | plugins/core/src/main/java/org/apache/cxf/fediz/core/FederationProcessorImpl.java:176-182 | a lifetime accepted with a clock skew is accepted with any larger skew in the int range |
| FederationProcessor.SkewCoveringGapAccepts | plugins/core/src/main/java/org/apache/cxf/fediz/core/FederationProcessorImpl.java:170-183 | an unexpired lifetime whose creation lies within the skew of now is accepted |
| FederationProcessor.ClockSkewRangeExample | plugins/core/src/test/java/org/apache/cxf/fediz/core/samlsso/SAMLResponseTest.java:921-992 | carries the SAML test's timings (valid from 30 s ahead until 300 s ahead, clock skew 60 s) over to the WS-Federation lifetime check: accepted; the same lifetime with no skew is TOKEN_INVALID, a case of the model's own |
| FederationProcessor.DecryptToken | plugins/core/src/main/java/org/apache/cxf/fediz/core/FederationProcessorImpl.java:185-277 | a token that is not xenc:EncryptedData passes unchanged; without a key manager, crypto or key password it is BAD_REQUEST; a decryption failure is TOKEN_INVALID; a decryption that yields no element keeps the encrypted token |
| FederationProcessor.Dispatch | plugins/core/src/main/java/org/apache/cxf/fediz/core/FederationProcessorImpl.java:194-222 | no validators dereferences a null response; otherwise only the first validator is asked (by token type when known, else by token): refusal is BAD_REQUEST, its ProcessingException passes through, any other exception is TOKEN_INVALID |
| FederationProcessor.OnlyFirstValidatorConsulted | plugins/core/src/main/java/org/apache/cxf/fediz/core/FederationProcessorImpl.java:196-219 | the validators after the first never change the outcome |
| FederationProcessor.MillisToSeconds | plugins/core/src/main/java/org/apache/cxf/fediz/core/FederationProcessorImpl.java:236-237 | Java long division by 1000: truncation toward zero, bounded on both sides |
| FederationProcessor.ReplayTtl | plugins/core/src/main/java/org/apache/cxf/fediz/core/FederationProcessorImpl.java:228-237 | the time-to-live comes from the lifetime's expiry when there is a lifetime, else from the validator's expiry, else there is none |
| FederationProcessor.RecordToken | plugins/core/src/main/java/org/apache/cxf/fediz/core/FederationProcessorImpl.java:221-246 | TOKEN_REPLAY exactly when detection is on and the token id is already cached; otherwise the cache gains exactly that id (with its time-to-live), or is unchanged when detection is off or there is no id |
| FederationProcessor.ParseLifetime | plugins/core/src/main/java/org/apache/cxf/fediz/core/FederationProcessorImpl.java:309-327 | no Lifetime element means no lifetime; an unparsable one is BAD_REQUEST |
| FederationProcessor.ValidateWresult | plugins/core/src/main/java/org/apache/cxf/fediz/core/FederationProcessorImpl.java:113-219 | unparsable XML, and a root that yields no RSTR, are INVALID_REQUEST; an RSTR without a RequestedSecurityToken is BAD_REQUEST; every failure is a ProcessingException, or a null dereference when no validator is configured; an accepted token passed the lifetime check, had a validator to go to, and is never an encrypted token that the configuration could not decrypt |
| FederationProcessor.SignIn | plugins/core/src/main/java/org/apache/cxf/fediz/core/FederationProcessorImpl.java:111-257 | a rejected sign-in leaves the replay cache unchanged; an accepted one adds at most the token's own id |
| FederationProcessor.Process | plugins/core/src/main/java/org/apache/cxf/fediz/core/FederationProcessorImpl.java:88-104 | a non-federation protocol is IllegalStateException, an action other than wsignin1.0 is INVALID_REQUEST, both with the cache unchanged; wsignin1.0 is the sign-in |
| FederationProcessor.ExpiredLifetimeRejected | plugins/core/src/main/java/org/apache/cxf/fediz/core/FederationProcessorImpl.java:170-175 | an RSTR whose lifetime has expired is TOKEN_EXPIRED when detection is on, whatever else it holds, and nothing is cached |
| FederationProcessor.SecondUseIsReplay | plugins/core/src/main/java/org/apache/cxf/fediz/core/FederationProcessorImpl.java:221-246 | with replay detection, presenting an accepted token with an id again is TOKEN_REPLAY at the same time, fails at any other time, and never writes the cache again |
| FederationProcessor.ValidationIgnoresClockOnceAccepted | plugins/core/src/main/java/org/apache/cxf/fediz/core/FederationProcessorImpl.java:165-219 | the clock decides only whether a token is accepted, never what an accepted token yields |
| FederationProcessor.NoReplayDetectionLeavesCache | plugins/core/src/main/java/org/apache/cxf/fediz/core/FederationProcessorImpl.java:222-223 | with replay detection off the cache is never written |
| FederationProcessor.MissingDecryptionKeyIsBadRequest | plugins/core/src/main/java/org/apache/cxf/fediz/core/FederationProcessorImpl.java:264-270 | for an RSTR whose token is encrypted, a configuration without decryption crypto or key password always fails with BAD_REQUEST, TOKEN_EXPIRED or TOKEN_INVALID; and with BAD_REQUEST whenever there is no Lifetime or the lifetime parses and passes its check; the cache is unchanged, and decryption is never consulted |
| FederationProcessor.TokenReplayCache.PutId | plugins/core/src/main/java/org/apache/cxf/fediz/core/FederationProcessorImpl.java:237 | the id is stored with its time-to-live and no other entry changes |
| FederationProcessor.TokenReplayCache.PutIdWithoutExpiry | plugins/core/src/main/java/org/apache/cxf/fediz/core/FederationProcessorImpl.java:239 | the id is stored without expiry and no other entry changes |
| FederationProcessor.ProcessSignInRequest | plugins/core/src/main/java/org/apache/cxf/fediz/core/FederationProcessorImpl.java:111-257 | the scan loop and the cache writes produce exactly the outcome and the cache that `SignIn` gives for the old cache |
| FederationProcessor.ProcessRequest | plugins/core/src/main/java/org/apache/cxf/fediz/core/FederationProcessorImpl.java:88-104 | the outcome and the new cache are those of `Process` for the old cache |
| SignInRequest.LastIndexOf | plugins/core/src/main/java/org/apache/cxf/fediz/core/FederationProcessorImpl.java:592 | String.lastIndexOf: -1 or an occurrence, with no occurrence after it |
| SignInRequest.UrlBase | plugins/core/src/main/java/org/apache/cxf/fediz/core/FederationProcessorImpl.java:589-596 | an empty path keeps the URL; otherwise the URL is cut at the last occurrence of its path, and it fails (substring(0, -1)) when the path does not occur |
| SignInRequest.ExtractFullContextPath | plugins/core/src/main/java/org/apache/cxf/fediz/core/FederationProcessorImpl.java:585-604 | the full context path always ends with '/', and equals the request URL without its path, plus the context path when non-empty, plus '/' |
| SignInRequest.ContextPathOfBareUrl | plugins/core/src/main/java/org/apache/cxf/fediz/core/FederationProcessorImpl.java:594-599 | a request URL without a path gives the URL followed by the (non-empty) context path and '/' |
| SignInRequest.ResolveReply | plugins/core/src/main/java/org/apache/cxf/fediz/core/FederationProcessorImpl.java:385-398 | an empty or missing reply is the request URL; an absolute URL is kept; anything else is resolved against the full context path with one leading '/' dropped |
| SignInRequest.LeadingSlashIgnored | plugins/core/src/main/java/org/apache/cxf/fediz/core/FederationProcessorImpl.java:392-396 | a relative reply resolves the same with or without one leading '/' |
| SignInRequest.ResolveRealm | plugins/core/src/main/java/org/apache/cxf/fediz/core/FederationProcessorImpl.java:565-582 | without a configured realm the realm defaults to the full context path |
| SignInRequest.Optional | plugins/core/src/main/java/org/apache/cxf/fediz/core/FederationProcessorImpl.java:411-433 | an optional parameter is sent, once and encoded, exactly when its value is non-null and non-empty |
| SignInRequest.SignInParameters | plugins/core/src/main/java/org/apache/cxf/fediz/core/FederationProcessorImpl.java:382-440 | the query starts with wa=wsignin1.0, the encoded wreply and the encoded wtrealm, ends with the encoded wct, and holds 4 to 8 parameters |
| SignInRequest.SignInParametersOrdered | plugins/core/src/main/java/org/apache/cxf/fediz/core/FederationProcessorImpl.java:382-440 | parameters appear in the order wa, wreply, wtrealm, wauth, wreq, whr, wfresh, wct, each at most once |
| SignInRequest.SignInParameterSent | plugins/core/src/main/java/org/apache/cxf/fediz/core/FederationProcessorImpl.java:411-433 | a parameter is sent exactly when it is one of the four fixed ones or its configured value is non-null and non-empty |
| SignInRequest.SignInParameterValue | plugins/core/src/main/java/org/apache/cxf/fediz/core/FederationProcessorImpl.java:411-433 | a set optional parameter is sent with its encoded value |
| SignInRequest.ParseJoinRoundTrip | plugins/core/src/main/java/org/apache/cxf/fediz/core/FederationProcessorImpl.java:382-440 | splitting the joined query on '&' and '=' gives back every name and value, in order, when no value contains a separator |
| SignInRequest.SignInQueryReadsBack | plugins/core/src/main/java/org/apache/cxf/fediz/core/FederationProcessorImpl.java:382-440 | with an encoder whose output never contains '&' or '=', the sign-in query reads back as exactly the parameters sent |
| SignInRequest.SignInUrl | plugins/core/src/main/java/org/apache/cxf/fediz/core/FederationProcessorImpl.java:349-453 | failure is always the untyped "Failed to create SignInRequest" and happens exactly when the protocol is not WS-Federation or the reply or realm cannot be resolved |
| SignInRequest.Extension | plugins/core/src/main/java/org/apache/cxf/fediz/core/FederationProcessorImpl.java:443-445 | the extension is empty exactly when the sign-in query is null or empty; otherwise it is '&' followed by the query, unencoded |
| SignInRequest.SignInUrlShape | plugins/core/src/main/java/org/apache/cxf/fediz/core/FederationProcessorImpl.java:360-447 | a successful URL starts with the issuer (the text "null" when unset), "?wa=wsignin1.0&wreply=", the encoded reply, "&wtrealm=" and the encoded realm, and ends with the sign-in query extension |
| SignInRequest.SignInUrlQuery | plugins/core/src/main/java/org/apache/cxf/fediz/core/FederationProcessorImpl.java:360-447 | what lies between the '?' after the issuer and the extension is exactly the joined sign-in parameters |
| SignInRequest.SignInUrlReadsBack | plugins/core/src/main/java/org/apache/cxf/fediz/core/FederationProcessorImpl.java:360-447 | with an encoder whose output never contains '&' or '=', that part of the URL reads back as exactly the parameters sent |
| SignInRequest.AppendIfSet | plugins/core/src/main/java/org/apache/cxf/fediz/core/FederationProcessorImpl.java:411-433 | appending an optional parameter to the builder keeps it equal to the join of the parameters so far |
| SignInRequest.CreateSignInRequest | plugins/core/src/main/java/org/apache/cxf/fediz/core/FederationProcessorImpl.java:349-453 | the string built step by step is exactly `SignInUrl` |
| RedirectBindingFilter.RequestParams | plugins/cxf/src/main/java/org/apache/cxf/fediz/cxf/plugin/FedizRedirectBindingFilter.java:80-87 | parameters are the query of a GET, the form of a POST, and null for any other method |
| RedirectBindingFilter.IsSignInRequired | plugins/cxf/src/main/java/org/apache/cxf/fediz/cxf/plugin/FedizRedirectBindingFilter.java:202-212 | a redirect to the IdP is required only with parameters: for WS-Federation exactly when wa is absent, for SAML exactly when RelayState is absent |
| RedirectBindingFilter.IsSignInRequest | plugins/cxf/src/main/java/org/apache/cxf/fediz/cxf/plugin/FedizRedirectBindingFilter.java:202-225 | a sign-in response needs parameters and is never also a sign-in-required request; for WS-Federation it is exactly wa = wsignin1.0; for SAML with parameters exactly one of the two holds |
| RedirectBindingFilter.GetResponseToken | plugins/cxf/src/main/java/org/apache/cxf/fediz/cxf/plugin/FedizRedirectBindingFilter.java:227-239 | the URL-decoded wresult for WS-Federation, the raw SAMLResponse for SAML, none without parameters |
| RedirectBindingFilter.AudienceCheck | plugins/cxf/src/main/java/org/apache/cxf/fediz/cxf/plugin/FedizRedirectBindingFilter.java:272-300 | a token passes exactly when it has no audience or some configured URI is a prefix of it; otherwise Forbidden (or a null dereference when no list is configured) |
| RedirectBindingFilter.ResponseExpiry | plugins/cxf/src/main/java/org/apache/cxf/fediz/cxf/plugin/FedizRedirectBindingFilter.java:145-152 | the session expires with the token, or stateTimeToLive after now when the token has no expiry |
| RedirectBindingFilter.EffectiveRoles | plugins/cxf/src/main/java/org/apache/cxf/fediz/cxf/plugin/FedizRedirectBindingFilter.java:156-159 | the session always has a role: the token's roles when there are any, else the single role "Authenticated" |
| RedirectBindingFilter.NewResponseState | plugins/cxf/src/main/java/org/apache/cxf/fediz/cxf/plugin/FedizRedirectBindingFilter.java:145-173 | the session records the expiry, the effective roles, the relay state, the creation time, the subject and the issuer |
| RedirectBindingFilter.SaveRequestState | plugins/cxf/src/main/java/org/apache/cxf/fediz/cxf/plugin/FedizRedirectBindingFilter.java:107-111 | a request state is stored under its own key only when it and its key are present; otherwise the store is unchanged |
| RedirectBindingFilter.TakeRequestState | plugins/cxf/src/main/java/org/apache/cxf/fediz/cxf/plugin/FedizRedirectBindingFilter.java:249-253 | removal yields the stored state when there is one and leaves every other key as it was |
| RedirectBindingFilter.ValidateSignIn | plugins/cxf/src/main/java/org/apache/cxf/fediz/cxf/plugin/FedizRedirectBindingFilter.java:241-270 | validation only removes request states, never adds or alters one; a refusal is NotAuthorized for a ProcessingException and the exception itself for anything else |
| RedirectBindingFilter.SignInResponse | plugins/cxf/src/main/java/org/apache/cxf/fediz/cxf/plugin/FedizRedirectBindingFilter.java:118-189 | a sign-in response either signs in or is an internal server error; signing in needs the SAML protocol and uses the new security context key, under which alone a session with the response's RelayState is stored; an error stores no session; the request states are those validation leaves |
| RedirectBindingFilter.FilterSpec | plugins/cxf/src/main/java/org/apache/cxf/fediz/cxf/plugin/FedizRedirectBindingFilter.java:71-200 | the filter passes a request through exactly when it has a security context, and then changes nothing; a redirect is sent only when sign-in is required and never touches the sessions; a session is opened only for a sign-in response; a sign-in request that carries no response token, and a request of neither kind, are internal server errors caused by BadRequest with no state change |
| RedirectBindingFilter.RelayStateReadOnce | plugins/cxf/src/main/java/org/apache/cxf/fediz/cxf/plugin/FedizRedirectBindingFilter.java:249-253 | validation removes the relay state's entry, whatever the processor answers, and only when RelayState is present |
| RedirectBindingFilter.ReplayedRelayStateFindsNothing | plugins/cxf/src/main/java/org/apache/cxf/fediz/cxf/plugin/FedizRedirectBindingFilter.java:241-270 | after one response with a relay state, a second one with the same relay state finds no request state |
| RedirectBindingFilter.ProcessorSeesStoredState | plugins/cxf/src/main/java/org/apache/cxf/fediz/cxf/plugin/FedizRedirectBindingFilter.java:246-265 | the processor is handed the request state stored under the relay state |
| RedirectBindingFilter.SessionOpenedOnlyOnSignIn | plugins/cxf/src/main/java/org/apache/cxf/fediz/cxf/plugin/FedizRedirectBindingFilter.java:71-200 | the response states change only on a successful sign-in, and then only under the new security context key |
| RedirectBindingFilter.SignedInSession | plugins/cxf/src/main/java/org/apache/cxf/fediz/cxf/plugin/FedizRedirectBindingFilter.java:118-188 | a session opens only for SAML, after the processor accepted the token it was handed; the session keeps the computed expiry, at least one role, the relay state and the current time |
| RedirectBindingFilter.FederationNeverSignsIn | plugins/cxf/src/main/java/org/apache/cxf/fediz/cxf/plugin/FedizRedirectBindingFilter.java:143 | with the WS-Federation protocol the filter never opens a session |
| RedirectBindingFilter.AudienceMismatchForbidden | plugins/cxf/src/main/java/org/apache/cxf/fediz/cxf/plugin/FedizRedirectBindingFilter.java:132-138 | a validated token whose audience no configured URI prefixes ends in an internal server error caused by Forbidden, with the relay state consumed and no session |
| RedirectBindingFilter.RedirectSavesRequestState | plugins/cxf/src/main/java/org/apache/cxf/fediz/cxf/plugin/FedizRedirectBindingFilter.java:89-113 | an unauthenticated request is redirected to the processor's URL with its headers, and only its request state is added |
| RedirectBindingFilter.StateManager.SetRequestState | plugins/cxf/src/main/java/org/apache/cxf/fediz/cxf/plugin/FedizRedirectBindingFilter.java:110 | stores one request state; the response states are untouched |
| RedirectBindingFilter.StateManager.RemoveRequestState | plugins/cxf/src/main/java/org/apache/cxf/fediz/cxf/plugin/FedizRedirectBindingFilter.java:252 | returns and removes the state under the key, as `TakeRequestState` |
| RedirectBindingFilter.StateManager.SetResponseState | plugins/cxf/src/main/java/org/apache/cxf/fediz/cxf/plugin/FedizRedirectBindingFilter.java:174 | stores one session; the request states are untouched |
| RedirectBindingFilter.ValidateAudienceRestrictions | plugins/cxf/src/main/java/org/apache/cxf/fediz/cxf/plugin/FedizRedirectBindingFilter.java:272-300 | the loop with its flag and early exit decides exactly as `AudienceCheck` |
| RedirectBindingFilter.ValidateSignInRequest | plugins/cxf/src/main/java/org/apache/cxf/fediz/cxf/plugin/FedizRedirectBindingFilter.java:241-270 | the removal and the processor call give exactly `ValidateSignIn`; a ProcessingException becomes NotAuthorized |
| RedirectBindingFilter.Filter | plugins/cxf/src/main/java/org/apache/cxf/fediz/cxf/plugin/FedizRedirectBindingFilter.java:71-200 | the outcome and the new state store are exactly `FilterSpec` for the old store |
| LogoutHandler.RouteOf | plugins/core/src/main/java/org/apache/cxf/fediz/core/handler/LogoutHandler.java:69-79 | wsignout1.0 goes to signout, wsignoutcleanup1.0 to cleanup, anything else to the custom logout |
| LogoutHandler.CanHandle | plugins/core/src/main/java/org/apache/cxf/fediz/core/handler/LogoutHandler.java:56-67 | a request is handled exactly when wa is a sign-out action, or the logout URL is set, the context path is set and the request URI is the context path followed by the logout URL |
| LogoutHandler.Handled | plugins/core/src/main/java/org/apache/cxf/fediz/core/handler/LogoutHandler.java:69-140 | cleanup always reports true; signout and the custom logout report true exactly when a redirect URL was produced |
| LogoutHandler.CustomRouteNeedsLogoutUrl | plugins/core/src/main/java/org/apache/cxf/fediz/core/handler/LogoutHandler.java:56-67 | a handled request without a sign-out action matches the configured, non-empty logout URL under a present context path |
| LogoutHandler.CustomLogoutActsAsSignOut | plugins/core/src/main/java/org/apache/cxf/fediz/core/handler/LogoutHandler.java:81-84 | the custom logout answers exactly as signout does |
| LogoutHandler.HeaderPairsGrow | plugins/core/src/main/java/org/apache/cxf/fediz/core/handler/LogoutHandler.java:120-125 | copying one more header adds exactly that header |
| LogoutHandler.Handler.CanHandleRequest | plugins/core/src/main/java/org/apache/cxf/fediz/core/handler/LogoutHandler.java:56-67 | answers exactly `CanHandle` for the handler's logout URL and context path |
| LogoutHandler.Handler.HandleRequest | plugins/core/src/main/java/org/apache/cxf/fediz/core/handler/LogoutHandler.java:69-79 | returns `Handled` for the current token; a cleanup request leaves the exchange as signoutCleanup does (`CleanedUp`), any other request as signout does (`SignedOut`) |
| LogoutHandler.Handler.CustomLogoutRequest | plugins/core/src/main/java/org/apache/cxf/fediz/core/handler/LogoutHandler.java:81-84 | returns true exactly when a redirect URL was produced, and leaves the exchange as signout does (`SignedOut`): headers copied and redirect sent on success, 500 on an exception, session untouched |
| LogoutHandler.Handler.SignoutCleanup | plugins/core/src/main/java/org/apache/cxf/fediz/core/handler/LogoutHandler.java:86-102 | always invalidates the session and returns true; redirects to wreply exactly when it is set and non-empty, else writes the logout image |
| LogoutHandler.Handler.Signout | plugins/core/src/main/java/org/apache/cxf/fediz/core/handler/LogoutHandler.java:108-140 | returns true exactly when a redirect URL was produced, and then copies every header and redirects; on an exception it sends 500; the session is untouched |
| DomSearch.FindElement | plugins/core/src/test/java/org/apache/cxf/fediz/core/samlsso/SAMLResponseTest.java:1324-1368 | null for a null start; otherwise the first matching element in document order, from the start node to the end of its parent's subtree, or null when none matches there |
| DomSearch.SearchRangeIsSiblingSubtrees | plugins/core/src/test/java/org/apache/cxf/fediz/core/samlsso/SAMLResponseTest.java:1335-1367 | that range is exactly the start node's subtree and the subtrees of its following siblings |
| DomSearch.FirstChildBeforeNextSibling | plugins/core/src/test/java/org/apache/cxf/fediz/core/samlsso/SAMLResponseTest.java:1349-1356 | a node's first child is visited before its next sibling |
| DomSearch.DescendStep | plugins/core/src/test/java/org/apache/cxf/fediz/core/samlsso/SAMLResponseTest.java:1349-1350 | descending to the first child moves to the next node in document order, still inside the searched subtree |
| DomSearch.SiblingStep | plugins/core/src/test/java/org/apache/cxf/fediz/core/samlsso/SAMLResponseTest.java:1353-1356 | moving to the next sibling skips exactly the finished subtree and stays inside the searched subtree |
| DomSearch.ClimbStep | plugins/core/src/test/java/org/apache/cxf/fediz/core/samlsso/SAMLResponseTest.java:1359-1366 | climbing out of a last child reaches the start node's parent exactly when its subtree is finished, and otherwise stays inside it |

## Left out

- XML parsing and serialisation (`DOMUtils.readXml`, `DOM2Writer`): the parsed tree, or its absence, is an input.
- WSS4J decryption (`EncryptedDataProcessor` and its callback handler): the outcome is an input with three cases: decrypted, no data reference, crypto failure.
- The token validators' signature and trust checks: each validator is a pair of capability predicates and a validation outcome.
- Date parsing (`processLifeTime`'s `XmlSchemaDateFormat`): the parsed lifetime, or a parse failure, is an input. Times are integers in milliseconds.
- `new Date()`, `DateTime` and `System.currentTimeMillis()` are one `now` per call.
- `URLEncoder`, `URLDecoder` and `java.net.URL` are functions given to the model. Their own exceptions are not modelled.
- `resolveIssuer`, `resolveAuthenticationType`, `resolveRequest`, `resolveHomeRealm`, `resolveFreshness`, `resolveSignInQuery` and `resolveWTRealm` (callback-handler resolution) are inputs. For the realm, the model keeps only whether one was configured.
- `getMetaData` and the metadata writer are out of scope.
- Filter plumbing is not modelled:
  - `Response` building and `abortWith`;
  - the security-context cookie (`CookieUtils`);
  - `checkSecurityContext`, which is a boolean input;
  - `getFedizContext`;
  - `new URI(redirectURL)`;
  - the absolute path of the final redirect.
- The filter's UUID is an input. The processor's `createSignInRequest` and `processRequest`, as the filter sees them, are given results.
- `RedirectBindingFilter.Filter`: the reading of the POST body and its parsing into parameters are inputs. Multi-valued parameters keep only their first value.
- `LogoutHandler.Handler.Signout`: an IOException from `sendRedirect` or `sendError` is not modelled. Headers are a set of name-value pairs, without their order.
- `LogoutHandler.Handler.SignoutCleanup`: the logout image streaming (`writeLogoutImage`) is I/O and appears only as a flag.
- FederationProcessor.SignIn: the sign-in pipeline (`SignIn`, `Process`, `ProcessSignInRequest`, `ProcessRequest`) runs the corrected root selection `SelectRstr`, so an empty RSTR collection is INVALID_REQUEST there, where the code as written throws NullPointerException (`SelectRstrAsWritten`, see "## Findings").
- XmlTree.Content: `DOMUtils.getContent` is not part of this model; it is taken to join the data of the element's text children and trim the result. CDATA sections, entity references and other node kinds are not text nodes here.
- The replay cache's `getId` and JAX-RS `MultivaluedMap.getFirst` are library lookups; `TokenReplayCache.GetId` and `GetFirst` model them as map membership and state nothing beyond it.
- Concurrency and the real replay cache's and state manager's own expiry are not modelled. Both are sequential maps.
- The SAML test fixtures (signing, deflate, Base64) and the other tests of the SAML test class are not modelled. Only `findElement` and the clock-skew example are.
- `DomSearch.FindElement` works on a well-formed tree (`Valid`), as any DOM is. Node types other than element and text have no name.

## Findings

| source | as written | input that shows it | evidently intended | confidence | as-written member | corrected member |
|---|---|---|---|---|---|---|
| plugins/core/src/main/java/org/apache/cxf/fediz/core/FederationProcessorImpl.java:128-131 | a `RequestSecurityTokenResponseCollection` root is replaced by `getFirstElement`, whose null result is then dereferenced | a wresult that is an empty `<wst:RequestSecurityTokenResponseCollection/>` | reject the response as INVALID_REQUEST, like any other unexpected root | not executed | FederationProcessor.EmptyCollectionThrowsNullPointer | FederationProcessor.SelectRstr |
