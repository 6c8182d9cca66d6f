/** The session façade of both flavors: one in-flight browser session at a
    time, the authorize → exchange → store chain, refresh, and the cached-token
    getters. Asynchronous publishers are modelled as the sequence of steps they
    run; everything the platform decides (randomness, hashing, URL parsing,
    the browser callback, the server and the JSON parser) is an input. */
module WebSession {
  import opened Wrappers
  import opened Errors
  import opened Url
  import opened Configuration
  import opened TokenDecoding
  import opened TokenApi
  import opened TokenStorage
  import opened Authorization

  /** A started `ASWebAuthenticationSession`, with what it was created from.
      `codeVerifier` is the verifier its completion handler captured; `id`
      tells sessions apart. */
  datatype BrowserSession = BrowserSession(
    id: nat,
    url: Url,
    callbackUrlScheme: string,
    prefersEphemeralWebBrowserSession: bool,
    codeVerifier: string
  )

  /** The state of one session object: the single authorization slot, the
      keychain it reads and writes, and how many browser sessions it started. */
  datatype Session = Session(
    flavor: Flavor,
    config: Config,
    slot: Option<BrowserSession>,
    keychain: Keychain,
    started: nat
  )

  /** The slot only ever holds a session this object started. */
  ghost predicate Valid(s: Session)
  {
    s.slot.Some? ==> s.slot.value.id < s.started
  }

  /** What the platform answers during one authorization attempt:
      `OAuthCodeVerifier.newCodeVerifier()`, `newCodeChallengeS256`,
      `URLComponents(string:)` and whether `URLComponents.url` succeeds. */
  datatype Platform = Platform(
    codeVerifier: Option<string>,
    codeChallengeS256: string -> Option<string>,
    parseUrl: string -> Option<Url>,
    assembles: Url -> bool
  )

  /** What the browser hands to the completion handler. */
  datatype Callback = Callback(url: Option<Url>, error: Option<string>)

  /** The token endpoint as seen from the library: a server answering each
      request, and the JSON parser applied to accepted bodies. */
  datatype Network = Network(server: Request -> Transport, parseJson: Bytes -> Option<Json>)

  /** The immediate effect of `authorize`: the new state, the session it
      cancelled (if any), and either the started browser session or the error
      the completion was called with at once. */
  datatype AuthorizeStart = AuthorizeStart(session: Session, cancelled: Option<BrowserSession>, outcome: Result<BrowserSession, Error>)

  /** The effect of a whole chain: the new state, the token-endpoint requests
      sent, in order, and the single result delivered to the caller. */
  datatype Exchange = Exchange(session: Session, requests: seq<Request>, result: Result<Token, Error>)

  function NewSession(flavor: Flavor, config: Config, keychain: Keychain): (s: Session)
    ensures Valid(s) && s.slot.None?
    ensures s.flavor == flavor && s.config == config && s.keychain == keychain
    ensures GetCachedAccessToken(s) == GetAccessToken(keychain, flavor)
    ensures GetCachedRefreshToken(s) == GetRefreshToken(keychain, flavor)
  {
    Session(flavor, config, None, keychain, 0)
  }

  /** A direct read of the session's own access-token entry; no expiry check. */
  function GetCachedAccessToken(s: Session): (r: Option<string>)
    ensures r.Some? <==> AccessTokenEntry(s.flavor) in s.keychain
    ensures r.Some? ==> r.value == s.keychain[AccessTokenEntry(s.flavor)]
  {
    GetAccessToken(s.keychain, s.flavor)
  }

  /** A direct read of the session's own refresh-token entry. */
  function GetCachedRefreshToken(s: Session): (r: Option<string>)
    ensures r.Some? <==> RefreshTokenEntry(s.flavor) in s.keychain
    ensures r.Some? ==> r.value == s.keychain[RefreshTokenEntry(s.flavor)]
  {
    GetRefreshToken(s.keychain, s.flavor)
  }

  /** The code challenge the platform derives for the attempt's verifier. */
  function Challenge(platform: Platform): Option<string>
  {
    if platform.codeVerifier.None? then None else platform.codeChallengeS256(platform.codeVerifier.value)
  }

  /** `authorize`: cancel and clear the slot first; then generate a verifier,
      derive its challenge and build the URL, failing at once and starting
      nothing if any of them fails; otherwise start a browser session, with
      `redirectUri` as its callback scheme, and keep it in the slot. */
  function Authorize(s: Session, platform: Platform): (r: AuthorizeStart)
    ensures r.cancelled == s.slot
    ensures r.session.flavor == s.flavor && r.session.config == s.config && r.session.keychain == s.keychain
    ensures r.session.slot == r.outcome.ToOption()
    ensures r.outcome.Success? <==>
      && Challenge(platform).Some?
      && AuthorizeUrl(s.config, Challenge(platform).value, platform.parseUrl, platform.assembles).Some?
    ensures r.outcome.Success? ==>
      && r.outcome.value.id == s.started
      && r.session.started == s.started + 1
      && r.outcome.value.codeVerifier == platform.codeVerifier.value
      && r.outcome.value.url == AuthorizeUrl(s.config, Challenge(platform).value, platform.parseUrl, platform.assembles).value
      && r.outcome.value.callbackUrlScheme == s.config.redirectUri
      && r.outcome.value.prefersEphemeralWebBrowserSession == s.config.prefersEphemeralWebBrowserSession
    ensures r.outcome.Failure? ==> r.session.started == s.started
    ensures platform.codeVerifier.None? ==> r.outcome == Failure(VerifierGenerationFailed)
    ensures platform.codeVerifier.Some? && Challenge(platform).None? ==> r.outcome == Failure(ChallengeGenerationFailed)
    ensures Challenge(platform).Some? && r.outcome.Failure? ==> r.outcome == Failure(AuthorizeUrlBuildFailed(s.config.oauthAuthorizeUrl))
  {
    var cleared := s.(slot := None);
    match platform.codeVerifier
    case None => AuthorizeStart(cleared, s.slot, Failure(VerifierGenerationFailed))
    case Some(codeVerifier) =>
      match platform.codeChallengeS256(codeVerifier)
      case None => AuthorizeStart(cleared, s.slot, Failure(ChallengeGenerationFailed))
      case Some(codeChallenge) =>
        match AuthorizeUrl(s.config, codeChallenge, platform.parseUrl, platform.assembles)
        case None => AuthorizeStart(cleared, s.slot, Failure(AuthorizeUrlBuildFailed(s.config.oauthAuthorizeUrl)))
        case Some(url) =>
          var browser := BrowserSession(s.started, url, s.config.redirectUri, s.config.prefersEphemeralWebBrowserSession, codeVerifier);
          AuthorizeStart(cleared.(slot := Some(browser), started := s.started + 1), s.slot, Success(browser))
  }

  /** Authorizing keeps the slot well formed, and the session it keeps is never
      the one it cancelled. */
  lemma AuthorizeReplacesSession(s: Session, platform: Platform)
    requires Valid(s)
    ensures Valid(Authorize(s, platform).session)
    ensures var r := Authorize(s, platform);
      r.cancelled.Some? && r.session.slot.Some? ==> r.cancelled.value.id != r.session.slot.value.id
  {
  }

  /** A successful authorization pairs the redirect's code with the verifier
      generated in that same call, and the URL the browser was sent to carries
      the challenge derived from that verifier. */
  lemma AuthorizePairsCodeWithVerifier(s: Session, platform: Platform, callback: Callback)
    requires Authorize(s, platform).outcome.Success?
    ensures var browser := Authorize(s, platform).outcome.value;
      && FirstValue(browser.url.query.value, "code_challenge") == Challenge(platform)
      && (CompleteAuthorize(browser.codeVerifier, callback.url, callback.error).Success? ==>
            CompleteAuthorize(browser.codeVerifier, callback.url, callback.error).value.codeVerifier == platform.codeVerifier.value)
  {
  }

  /** The token chain shared by exchange and refresh: send `request`, and
      store the token only when one comes back. */
  function SendAndStore(s: Session, request: Request, network: Network): (r: Exchange)
    ensures r.requests == [request]
    ensures r.session.slot == s.slot && r.session.started == s.started
    ensures r.session.flavor == s.flavor && r.session.config == s.config
    ensures r.result == ReceiveToken(network.server(request), network.parseJson)
    ensures r.result.Success? ==> r.session.keychain == StoreToken(s.keychain, s.flavor, r.result.value)
    ensures r.result.Failure? ==> r.session.keychain == s.keychain
  {
    match ReceiveToken(network.server(request), network.parseJson)
    case Failure(e) => Exchange(s, [request], Failure(e))
    case Success(token) => Exchange(s.(keychain := StoreToken(s.keychain, s.flavor, token)), [request], Success(token))
  }

  /** `authenticatePublisher`: authorize, wait for the browser callback,
      exchange the code with this attempt's verifier, store the token and hand
      it back. The first stage to fail ends the chain with its error. */
  function Authenticate(s: Session, platform: Platform, callback: Callback, network: Network): (r: Exchange)
    ensures r.session.flavor == s.flavor && r.session.config == s.config
    ensures r.session.slot == Authorize(s, platform).session.slot
    ensures r.session.started == Authorize(s, platform).session.started
    ensures |r.requests| <= 1
    ensures forall i | 0 <= i < |r.requests| :: GrantType(r.requests[i]) == Some(AuthorizationCodeGrant)
    ensures |r.requests| == 1 <==>
      && Authorize(s, platform).outcome.Success?
      && callback.error.None? && callback.url.Some? && CodeFromRedirect(callback.url.value).Some?
    ensures |r.requests| == 1 ==>
      r.requests[0] == ExchangeRequest(s.config, CodeFromRedirect(callback.url.value).value, platform.codeVerifier.value)
    ensures r.result.Success? ==> |r.requests| == 1 && r.result == ReceiveToken(network.server(r.requests[0]), network.parseJson)
    ensures r.result.Success? ==> r.session.keychain == StoreToken(s.keychain, s.flavor, r.result.value)
    ensures r.result.Failure? ==> r.session.keychain == s.keychain
    ensures callback.error.Some? && Authorize(s, platform).outcome.Success? ==> r.result == Failure(Presentation(callback.error.value))
    ensures Authorize(s, platform).outcome.Failure? ==> r.result == Failure(Authorize(s, platform).outcome.error)
    ensures Authorize(s, platform).outcome.Success? && callback.error.None? && (callback.url.None? || CodeFromRedirect(callback.url.value).None?) ==>
      r.result == Failure(MissingAuthorizationCode)
    ensures |r.requests| == 1 ==> r.result == ReceiveToken(network.server(r.requests[0]), network.parseJson)
  {
    var start := Authorize(s, platform);
    match start.outcome
    case Failure(e) => Exchange(start.session, [], Failure(e))
    case Success(browser) =>
      match CompleteAuthorize(browser.codeVerifier, callback.url, callback.error)
      case Failure(e) => Exchange(start.session, [], Failure(e))
      case Success(response) =>
        var request := ExchangeRequest(s.config, response.code, response.codeVerifier);
        ExchangeRequestParameters(s.config, response.code, response.codeVerifier);
        SendAndStore(start.session, request, network)
  }

  /** After a successful authentication the cached getters return exactly the
      token that was handed back; after a failed one they return what they did
      before. */
  lemma AuthenticateCachesToken(s: Session, platform: Platform, callback: Callback, network: Network)
    ensures var r := Authenticate(s, platform, callback, network);
      && (r.result.Success? ==>
            && GetCachedAccessToken(r.session) == Some(r.result.value.accessToken)
            && GetCachedRefreshToken(r.session) == Some(r.result.value.refreshToken))
      && (r.result.Failure? ==>
            && GetCachedAccessToken(r.session) == GetCachedAccessToken(s)
            && GetCachedRefreshToken(r.session) == GetCachedRefreshToken(s))
  {
  }

  /** `renewAccessTokenPublisher`: refresh with the given token, store the
      reply on success. Only the plain session offers it. */
  function RenewAccessToken(s: Session, refreshToken: string, network: Network): (r: Exchange)
    requires s.flavor == Plain
    ensures r.requests == [RefreshRequest(s.config, refreshToken)]
    ensures r.session.flavor == s.flavor && r.session.config == s.config
    ensures GrantType(r.requests[0]) == Some(RefreshTokenGrant)
    ensures r.session.slot == s.slot && r.session.started == s.started
    ensures r.result == ReceiveToken(network.server(RefreshRequest(s.config, refreshToken)), network.parseJson)
    ensures r.result.Success? ==> r.session.keychain == StoreToken(s.keychain, s.flavor, r.result.value)
    ensures r.result.Success? ==>
      && GetCachedAccessToken(r.session) == Some(r.result.value.accessToken)
      && GetCachedRefreshToken(r.session) == Some(r.result.value.refreshToken)
    ensures r.result.Failure? ==> r.session.keychain == s.keychain
  {
    RefreshRequestParameters(s.config, refreshToken);
    SendAndStore(s, RefreshRequest(s.config, refreshToken), network)
  }

  /** `renewAccessTokenElseAuthenticate`: with a cached refresh token, refresh
      with exactly that token and never touch the browser; without one,
      authenticate and never refresh. */
  function RenewAccessTokenElseAuthenticate(s: Session, platform: Platform, callback: Callback, network: Network): (r: Exchange)
    requires s.flavor == Plain
    ensures GetCachedRefreshToken(s).Some? ==>
      && r.requests == [RefreshRequest(s.config, GetCachedRefreshToken(s).value)]
      && r.session.slot == s.slot && r.session.started == s.started
    ensures GetCachedRefreshToken(s).None? ==>
      && (forall i | 0 <= i < |r.requests| :: GrantType(r.requests[i]) == Some(AuthorizationCodeGrant))
      && r.session.slot == Authorize(s, platform).session.slot
    ensures GetCachedRefreshToken(s).Some? ==>
      r.result == ReceiveToken(network.server(RefreshRequest(s.config, GetCachedRefreshToken(s).value)), network.parseJson)
    ensures r.session.flavor == s.flavor && r.session.config == s.config
    ensures GetCachedRefreshToken(s).None? ==> r.session.started == Authorize(s, platform).session.started
    ensures GetCachedRefreshToken(s).None? ==>
      && r.requests == Authenticate(s, platform, callback, network).requests
      && r.result == Authenticate(s, platform, callback, network).result
    ensures r.result.Success? ==> r.session.keychain == StoreToken(s.keychain, s.flavor, r.result.value)
    ensures r.result.Failure? ==> r.session.keychain == s.keychain
  {
    match GetCachedRefreshToken(s)
    case Some(refreshToken) => RenewAccessToken(s, refreshToken, network)
    case None => Authenticate(s, platform, callback, network)
  }

  /** `deleteTokens` of the PKCE session: both cached getters answer nothing
      afterwards, and nothing else about the session changes. */
  function DeleteTokens(s: Session): (s': Session)
    ensures GetCachedAccessToken(s') == None && GetCachedRefreshToken(s') == None
    ensures s'.slot == s.slot && s'.flavor == s.flavor && s'.config == s.config && s'.started == s.started
    ensures AgreeOutside(s.flavor, s.keychain, s'.keychain)
  {
    s.(keychain := DeleteToken(s.keychain, s.flavor))
  }

  /** `revoke` of the plain session: a local delete only. The PKCE session's
      tokens, kept under another service, survive it. */
  function Revoke(s: Session): (s': Session)
    requires s.flavor == Plain
    ensures GetCachedAccessToken(s') == None && GetCachedRefreshToken(s') == None
    ensures GetAccessToken(s'.keychain, Pkce) == GetAccessToken(s.keychain, Pkce)
    ensures GetRefreshToken(s'.keychain, Pkce) == GetRefreshToken(s.keychain, Pkce)
    ensures AgreeOutside(Plain, s.keychain, s'.keychain)
    ensures s'.slot == s.slot && s'.flavor == s.flavor && s'.config == s.config && s'.started == s.started
  {
    FlavorsAreIsolated(s.keychain, Plain, Pkce, Token("", 0, "", None, ""));
    DeleteTokens(s)
  }
}
