/** The browser leg of the flow: the authorize URL sent out, and the
    authorization code read back from the redirect. */
module Authorization {
  import opened Wrappers
  import opened Errors
  import opened Url
  import opened Configuration

  /** The only code challenge method the library supports. */
  const S256 := "S256"

  /** `OAuthPKCEAuthorizeResponse`: the code from the redirect and the verifier
      of the attempt that requested it. */
  datatype AuthorizeResponse = AuthorizeResponse(code: string, codeVerifier: string)

  /** The query the authorize URL carries, in the order it is written. */
  function AuthorizeQuery(config: Config, codeChallenge: string): (items: seq<QueryItem>)
    ensures Names(items) == ["client_id", "code_challenge", "code_challenge_method", "redirect_uri", "response_type"]
    ensures forall i | 0 <= i < |items| :: items[i].value.Some?
    ensures "code" !in Names(items)
  {
    [
      QueryItem("client_id", Some(config.clientId)),
      QueryItem("code_challenge", Some(codeChallenge)),
      QueryItem("code_challenge_method", Some(S256)),
      QueryItem("redirect_uri", Some(config.redirectUri)),
      QueryItem("response_type", Some("code"))
    ]
  }

  /** `getAuthorizeUrl`. `parseUrl` is `URLComponents(string:)` and
      `assembles` says whether `URLComponents.url` can form a URL from the
      components; both belong to the platform and are passed in. The query of
      the configured URL is replaced, not extended. */
  function AuthorizeUrl(config: Config, codeChallenge: string, parseUrl: string -> Option<Url>, assembles: Url -> bool): (r: Option<Url>)
    ensures r.Some? <==>
      && parseUrl(config.oauthAuthorizeUrl).Some?
      && assembles(parseUrl(config.oauthAuthorizeUrl).value.(query := Some(AuthorizeQuery(config, codeChallenge))))
    ensures r.Some? ==> r.value.base == parseUrl(config.oauthAuthorizeUrl).value.base
    ensures r.Some? ==> r.value.query.Some? && Names(r.value.query.value) == ["client_id", "code_challenge", "code_challenge_method", "redirect_uri", "response_type"]
  {
    match parseUrl(config.oauthAuthorizeUrl)
    case None => None
    case Some(components) =>
      var url := components.(query := Some(AuthorizeQuery(config, codeChallenge)));
      if assembles(url) then Some(url) else None
  }

  /** Reading the built URL back gives the configured client and redirect, the
      given challenge, method S256 and response type `code`, whatever query the
      configured URL had before. */
  lemma AuthorizeUrlParameters(config: Config, codeChallenge: string, parseUrl: string -> Option<Url>, assembles: Url -> bool)
    requires AuthorizeUrl(config, codeChallenge, parseUrl, assembles).Some?
    ensures var items := AuthorizeUrl(config, codeChallenge, parseUrl, assembles).value.query.value;
      && FirstValue(items, "client_id") == Some(config.clientId)
      && FirstValue(items, "code_challenge") == Some(codeChallenge)
      && FirstValue(items, "code_challenge_method") == Some(S256)
      && FirstValue(items, "redirect_uri") == Some(config.redirectUri)
      && FirstValue(items, "response_type") == Some("code")
      && FirstValue(items, "code") == None
  {
    var items := AuthorizeUrl(config, codeChallenge, parseUrl, assembles).value.query.value;
    assert FirstNamedAt(items, "client_id", 0);
    assert FirstNamedAt(items, "code_challenge", 1);
    assert FirstNamedAt(items, "code_challenge_method", 2);
    assert FirstNamedAt(items, "redirect_uri", 3);
    assert FirstNamedAt(items, "response_type", 4);
  }

  /** `getCodeFromAuthorizeRedirectUrl`: the value of the first query item
      named `code`; nothing when the URL has no query, no such item, or when
      that first item has no value. */
  function CodeFromRedirect(url: Url): (code: Option<string>)
    ensures code.Some? ==> url.query.Some? && exists i :: FirstNamedAt(url.query.value, "code", i) && url.query.value[i].value == code
    ensures url.query.Some? ==> forall i | FirstNamedAt(url.query.value, "code", i) :: code == url.query.value[i].value
  {
    match url.query
    case None => None
    case Some(items) => FirstValue(items, "code")
  }

  /** A first `code` item without a value hides any later `code` item that has one. */
  lemma ValuelessFirstCodeHidesLater(base: string, before: seq<QueryItem>, after: seq<QueryItem>)
    requires "code" !in Names(before)
    ensures CodeFromRedirect(Url(base, Some(before + [QueryItem("code", None)] + after))) == None
  {
    FirstValueIgnoresSuffix(before, QueryItem("code", None), after);
  }

  /** The completion handler of the browser session. A callback error wins
      over any URL; otherwise a code must be found in the redirect, and it is
      paired with the verifier captured when the attempt was started. */
  function CompleteAuthorize(codeVerifier: string, callbackUrl: Option<Url>, callbackError: Option<string>): (r: Result<AuthorizeResponse, Error>)
    ensures callbackError.Some? ==> r == Failure(Presentation(callbackError.value))
    ensures r.Success? <==> callbackError.None? && callbackUrl.Some? && CodeFromRedirect(callbackUrl.value).Some?
    ensures r.Success? ==> r.value == AuthorizeResponse(CodeFromRedirect(callbackUrl.value).value, codeVerifier)
    ensures callbackError.None? && r.Failure? ==> r.error == MissingAuthorizationCode
  {
    if callbackError.Some? then Failure(Presentation(callbackError.value))
    else if callbackUrl.None? then Failure(MissingAuthorizationCode)
    else match CodeFromRedirect(callbackUrl.value)
      case None => Failure(MissingAuthorizationCode)
      case Some(code) => Success(AuthorizeResponse(code, codeVerifier))
  }

  /** Redirecting straight back to the authorize URL yields no code: the
      builder never writes an item named `code`, only the value `code`. */
  lemma AuthorizeUrlCarriesNoCode(config: Config, codeChallenge: string, parseUrl: string -> Option<Url>, assembles: Url -> bool, codeVerifier: string)
    requires AuthorizeUrl(config, codeChallenge, parseUrl, assembles).Some?
    ensures CompleteAuthorize(codeVerifier, AuthorizeUrl(config, codeChallenge, parseUrl, assembles), None) == Failure(MissingAuthorizationCode)
  {
  }
}
