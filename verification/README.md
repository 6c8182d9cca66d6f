# OAuth 2.0 authorization-code + PKCE client — a verified model

This project models, in Dafny, the deterministic core of an iOS OAuth 2.0
client library that implements the authorization-code grant with PKCE
(section 4.1 of RFC 6749, sections 4.3 and 4.5 of RFC 7636). The library has
two session classes, `OAuthWebSession` (authorize, exchange, refresh, revoke)
and `OAuthPKCEWebSession` (authorize, exchange, delete tokens); they are one
model here, told apart by `Configuration.Flavor`.

| file | module | models |
|---|---|---|
| `wrappers.dfy` | `Wrappers` | Swift optionals and throwing results |
| `errors.dfy` | `Errors` | every failure a guard or a throwing call can raise |
| `configuration.dfy` | `Configuration` | `OAuthWebSessionConfiguration`, the session flavor |
| `url.dfy` | `Url` | `URLComponents` as base + ordered `URLQueryItem`s, first-match lookup |
| `authorization.dfy` | `Authorization` | `getAuthorizeUrl`, `getCodeFromAuthorizeRedirectUrl`, the browser completion handler |
| `token_decoding.dfy` | `TokenDecoding` | `OAuthPKCETokenDecodable.init(from:)` over a parsed JSON object |
| `token_api.dfy` | `TokenApi` | exchange and refresh request builders, the HTTP status gate, reply handling |
| `token_storage.dfy` | `TokenStorage` | both keychain token stores over one `(service, account) → password` map |
| `web_session.dfy` | `WebSession` | the authorization slot, the authenticate / renew chains, cached getters, revoke |

Everything the platform decides is an input: the random verifier
(`Platform.codeVerifier`), the S256 challenge function, `URLComponents(string:)`
and whether `URLComponents.url` succeeds, the browser's callback
(`Callback(url, error)`), the token server (`Request -> Transport`) and the
JSON parser (`Bytes -> Option<Json>`). Combine chains are modelled as the
sequence of steps they run; a chain's result says which requests it sent, the
single value or error it delivered, and the session state afterwards.

Behaviour of the code that the model keeps, although a reader of the OAuth
standards might expect otherwise:

- The browser session is created with `redirectUri` as its callback scheme;
  `callbackUrlScheme` of the configuration is never read
  (`WebSession.Authorize`).
- Any status in [200, 400) is success, so a 3xx reply is decoded as a token
  reply, although section 5.1 of RFC 6749 answers a token request with 200.
- `refresh_token` is required in every token reply, which is stricter than
  section 5.1 of RFC 6749.
- The completion handler of a browser session does not check whether its
  session is still the one in the slot; nothing in the code drops the
  callback of a cancelled session.

## Model

| member | source | states |
|---|---|---|
| `Url.FirstValue` | Sources/OAuth/OAuthWebSession.swift:231-238 | the result is the value of the first item with the name, and it is nothing when no item has the name |
| `Url.FirstValueIgnoresSuffix` | Sources/OAuth/OAuthWebSession.swift:231-235 | once the first item with the name is reached, the items after it never change the result |
| `Authorization.CodeFromRedirect` | Sources/OAuth/OAuthPKCEWebSession.swift:162-178 | the code is the value of the first `code` item; a URL with no query or no `code` item yields none |
| `Authorization.ValuelessFirstCodeHidesLater` | Sources/OAuth/OAuthPKCEWebSession.swift:170-175 | a first `code` item with no value yields none even when a later `code` item has a value |
| `Authorization.AuthorizeQuery` | Sources/OAuth/OAuthWebSession.swift:254-260 | the query holds exactly the names client_id, code_challenge, code_challenge_method, redirect_uri, response_type in that order, every one with a value, and none named code |
| `Authorization.AuthorizeUrl` | Sources/OAuth/OAuthWebSession.swift:241-270 | the URL exists exactly when the configured URL parses and can be reassembled; it keeps the configured base and its query is replaced by exactly the five items client_id, code_challenge, code_challenge_method, redirect_uri, response_type in that order |
| `Authorization.AuthorizeUrlParameters` | Sources/OAuth/OAuthPKCEWebSession.swift:180-209 | reading the built URL back gives the configured client id and redirect URI, the given challenge, method S256 and response type code, and no `code` item |
| `Authorization.CompleteAuthorize` | Sources/OAuth/OAuthWebSession.swift:172-193 | a callback error wins over the URL; success happens exactly when there is no error and the URL has a code, and it pairs that code with the attempt's verifier; every other case is a missing-code failure |
| `Authorization.AuthorizeUrlCarriesNoCode` | Sources/OAuth/OAuthWebSession.swift:254-260 | a redirect back to the authorize URL itself yields no code, since the builder writes `code` only as a value |
| `TokenDecoding.DecodeString` | Sources/OAuth/OAuthPKCETokenDecodable.swift:32 | a required string decodes exactly when the key is present with a string value, and gives that string |
| `TokenDecoding.DecodeInt` | Sources/OAuth/OAuthPKCETokenDecodable.swift:33 | `expires_in` decodes exactly when it is an integer that fits in a 64-bit Int, and gives that integer |
| `TokenDecoding.DecodeStringIfPresent` | Sources/OAuth/OAuthPKCETokenDecodable.swift:35 | an absent or null `scope` gives none, a string gives that string, anything else fails |
| `TokenDecoding.DecodeToken` | Sources/OAuth/OAuthPKCETokenDecodable.swift:28-37 | decoding succeeds exactly when the four required fields have the right types and scope is absent, null or a string; each field of the record equals the JSON value under its CodingKeys name; on failure the error is that of the first field, in declaration order, that fails |
| `TokenDecoding.DecodeEncodeRoundTrip` | Sources/OAuth/OAuthPKCETokenDecodable.swift:19-26 | every token with a 64-bit lifetime decodes back from its JSON form unchanged |
| `TokenDecoding.DecodeIgnoresUnknownKeys` | Sources/OAuth/OAuthPKCETokenDecodable.swift:19-37 | two objects that agree on the CodingKeys decode to the same outcome |
| `TokenDecoding.RequiredFieldsMissing` | Sources/OAuth/OAuthPKCETokenDecodable.swift:32-36 | an object missing access_token, expires_in, refresh_token or token_type never decodes |
| `TokenApi.ExchangeRequest` | Sources/OAuth/GetOAuthTokenApi.swift:37-55 | the exchange is a POST to the token URL with a form-urlencoded content type and no body, whose parameters are named client_id, code_verifier, grant_type, code, redirect_uri in that order, all with values |
| `TokenApi.ExchangeRequestParameters` | Sources/OAuth/GetOAuthPKCETokenApi.swift:36-54 | the exchange carries the configured client id and redirect URI, grant type authorization_code, exactly the given code and verifier, and no refresh token |
| `TokenApi.RefreshRequest` | Sources/OAuth/RefreshOAuthAccessTokenApi.swift:37-54 | the refresh is a form-urlencoded POST to the token URL with no body, whose parameters are named client_id, grant_type, redirect_uri, refresh_token in that order |
| `TokenApi.RefreshRequestParameters` | Sources/OAuth/RefreshOAuthAccessTokenApi.swift:39-44 | the refresh carries grant type refresh_token and exactly the given refresh token, and neither a code nor a verifier |
| `TokenApi.GrantsDistinguishRequests` | Sources/OAuth/GetOAuthTokenApi.swift:39-45 | the exchange and the refresh request always ask for different grants |
| `TokenApi.AcceptResponse` | Sources/OAuth/GetOAuthTokenApi.swift:64-76 | a reply is accepted exactly when it has a status in [200, 400), and then its data pass on unchanged; a missing status and a rejected status are distinct errors |
| `TokenApi.StatusGateBoundaries` | Sources/OAuth/GetOAuthPKCETokenApi+Combine.swift:21-33 | 200 and 399 are accepted, 199 and 400 are rejected, a missing status is an error |
| `TokenApi.ReceiveToken` | Sources/OAuth/RefreshOAuthAccessTokenApi.swift:56-79 | a token results exactly when the transport delivers, the status gate accepts, the body parses and decodes; otherwise the error of the first failing stage (transport, gate, unreadable JSON, or the decoder's own error) reaches the caller unchanged |
| `TokenApi.RejectedStatusNeverDecodes` | Sources/OAuth/GetOAuthPKCETokenApi+Combine.swift:18-36 | a reply with a status outside [200, 400) fails with that status whatever its body holds |
| `TokenStorage.GetAccessToken` | Sources/OAuth/OAuthTokenKeychainStorage.swift:24-27 | the access token is present exactly when the flavor's access entry exists, and is its value; a missing entry is none, not an error |
| `TokenStorage.GetRefreshToken` | Sources/OAuth/OAuthTokenKeychainStorage.swift:29-32 | the refresh token is present exactly when the flavor's refresh entry exists, and is its value |
| `TokenStorage.StoreToken` | Sources/OAuth/OAuthTokenKeychainStorage.swift:34-47 | after storing, the getters return the token's access and refresh strings, and every entry the flavor does not own is untouched |
| `TokenStorage.DeleteToken` | Sources/OAuth/OAuthTokenKeychainStorage.swift:49-53 | after deleting, both getters return none, and every other entry is untouched |
| `TokenStorage.AccountsAreDistinct` | Sources/OAuth/OAuthTokenKeychainStorage.swift:14-16 | the access and refresh accounts differ and live in the flavor's service |
| `TokenStorage.ServicesDiffer` | Sources/OAuth/OAuthPKCETokenKeychainStorage.swift:14 | the PKCE store's service differs from the plain store's |
| `TokenStorage.StoreLastWriteWins` | Sources/OAuth/OAuthPKCETokenKeychainStorage.swift:34-47 | storing twice leaves the keychain as storing only the second token would |
| `TokenStorage.DeleteUndoesStore` | Sources/OAuth/OAuthPKCETokenKeychainStorage.swift:49-53 | deleting after storing leaves the keychain as deleting alone would |
| `TokenStorage.FlavorsAreIsolated` | Sources/OAuth/OAuthPKCETokenKeychainStorage.swift:14-18 | storing or deleting in one flavor never changes what the other flavor's getters return |
| `WebSession.NewSession` | Sources/OAuth/OAuthWebSession.swift:20-34 | a new session has the given flavor, configuration and keychain, holds no browser session and reads the tokens already in the keychain |
| `WebSession.GetCachedAccessToken` | Sources/OAuth/OAuthWebSession.swift:36-38 | a direct read of the session's own access entry, present exactly when the entry exists, with no expiry check |
| `WebSession.GetCachedRefreshToken` | Sources/OAuth/OAuthPKCEWebSession.swift:38-40 | a direct read of the session's own refresh entry, present exactly when the entry exists |
| `WebSession.Authorize` | Sources/OAuth/OAuthWebSession.swift:147-202 | the prior session is cancelled; an early failure (verifier, challenge or URL, in that order) starts nothing and leaves the slot empty; otherwise a fresh session is started with the built URL, redirectUri as callback scheme, the ephemeral preference and the generated verifier, and it alone is held |
| `WebSession.AuthorizeReplacesSession` | Sources/OAuth/OAuthPKCEWebSession.swift:86-141 | authorizing keeps the slot holding only sessions it started, and the held session is never the cancelled one |
| `WebSession.AuthorizePairsCodeWithVerifier` | Sources/OAuth/OAuthPKCEWebSession.swift:93-131 | the browser is sent the challenge of this attempt's verifier, and a successful response carries that same verifier |
| `WebSession.SendAndStore` | Sources/OAuth/OAuthWebSession.swift:92-99 | one request is sent; the keychain is written with the token received only when one is received, and is otherwise unchanged |
| `WebSession.Authenticate` | Sources/OAuth/OAuthWebSession.swift:122-140 | at most one request is sent, an authorization-code exchange with the redirect's code and this attempt's verifier, sent exactly when authorization and callback succeed; the result is the early authorization error, the callback error, a missing-code failure, or the outcome of that exchange reply; the token is stored only on success |
| `WebSession.AuthenticateCachesToken` | Sources/OAuth/OAuthPKCEWebSession.swift:66-84 | after a successful authentication the cached getters return the token handed back; after a failure they return what they did before |
| `WebSession.RenewAccessToken` | Sources/OAuth/OAuthWebSession.swift:90-101 | one refresh request with the given token is sent and the result is the outcome of its reply; the keychain then holds exactly the returned token on success and is unchanged on failure; the browser slot is untouched; flavor and configuration are unchanged |
| `WebSession.RenewAccessTokenElseAuthenticate` | Sources/OAuth/OAuthWebSession.swift:61-71 | with a cached refresh token, exactly one refresh with that token, no authorization, and the refresh reply's outcome as result; without one, the requests and result of authentication and no refresh request, with the start count of that authorization; flavor and configuration are unchanged on both branches |
| `WebSession.DeleteTokens` | Sources/OAuth/OAuthPKCEWebSession.swift:34-45 | afterwards both cached getters return none and nothing but the flavor's two entries changes |
| `WebSession.Revoke` | Sources/OAuth/OAuthWebSession.swift:49-54 | afterwards both cached getters return none; every keychain entry outside the plain flow's two (the PKCE tokens included), the slot, configuration and start count are unchanged |

## Left out

- Browser presentation (`ASWebAuthenticationSession` itself, `presentationAnchor`, the presenting window): UI. A browser session is a record of what it was started with; its callback is the input `Callback(url, error)`.
- The `[weak self]` capture in the completion handler: the session object is assumed alive when the callback fires.
- Combine (`Future`, `flatMap`, `sink`, `cancellables`) and the callback-style `authenticate` / `renewAccessToken` wrappers: async plumbing that forwards the publisher's one value or error unchanged.
- `URLSession` configuration (ephemeral, no cache, no cookies, 60 s timeout): transport setup with nothing to state.
- Verifier generation and S256 challenge derivation: foreign cryptography, modelled as an optional input value and an input function.
- `RequestBuilder`, percent-encoding by `URLComponents`, and `JSONDecoder`'s text parsing: library code; the model stops at the parameter list handed to the builder and at a parsed JSON value.
- TokenDecoding.DecodeInt: JSON numbers written with a fraction or exponent are all treated as non-integers, so an integral value written that way (`3600.0`, `1e2`) fails to decode in the model, whereas the library's `JSONDecoder` converts it exactly and accepts it as `Int`; `JFraction` does not record the number's value, so the model cannot tell an integral one apart.
- A redirect URL that `URLComponents(url:)` cannot decompose: the redirect is taken already decomposed.
- `KeychainPasswordStore` internals: a map per (service, account); reads never fail.
- StoreToken: keychain write failures are not modelled (every write takes effect), because the library discards the write results and has no failure path to model. The library writes the two entries one after the other, so a failing second write can leave a half-written pair (new access token, old refresh token); the model, where every write takes effect, cannot show that state.
- The definitions of `OAuthTokenDecodable`, `OAuthAuthorizeResponse`, `OAuthPKCEWebSessionConfiguration`, `OAuthPKCECodeVerifier` and `OAuthPKCECodeChallenge` are not shown in the source. Assumed: the plain flow decodes the same token schema as `OAuthPKCETokenDecodable` (`TokenDecoding.Token`); `OAuthAuthorizeResponse` has the fields of `OAuthPKCEAuthorizeResponse` (`Authorization.AuthorizeResponse`); the PKCE configuration has the fields of `OAuthWebSessionConfiguration` (`Configuration.Config`); the PKCE verifier and challenge, like their plain twins, are the optional verifier and the challenge function of `WebSession.Platform`.
- `Example/OAuthExample/AppDelegate.swift` and `Package.swift`: app shell and manifest, no core logic.
