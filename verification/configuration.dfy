/** The immutable settings a web session is created with. */
module Configuration {

  /** `OAuthWebSessionConfiguration`. `callbackUrlScheme` is carried but never
      read by the flows: the browser session is given `redirectUri` instead. */
  datatype Config = Config(
    callbackUrlScheme: string,
    clientId: string,
    oauthAuthorizeUrl: string,
    oauthTokenRequestUrl: string,
    prefersEphemeralWebBrowserSession: bool,
    redirectUri: string
  )

  /** The two session classes: the plain one (authorize, exchange, refresh) and
      the PKCE one (authorize, exchange). They keep tokens in separate keychain
      services. */
  datatype Flavor = Plain | Pkce
}
