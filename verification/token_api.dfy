/** The token endpoint: the two request builders and the status gate every
    reply passes before it is decoded. */
module TokenApi {
  import opened Wrappers
  import opened Errors
  import opened Url
  import opened Configuration
  import opened TokenDecoding

  type Bytes = seq<bv8>

  datatype HttpMethod = Post

  /** What the library hands to its request builder: the parameters travel as
      query items, the body stays empty. */
  datatype Request = Request(
    urlString: string,
    httpMethod: HttpMethod,
    headers: map<string, string>,
    httpBody: Option<Bytes>,
    queryItems: seq<QueryItem>
  )

  const ContentTypeHeader := "Content-Type"
  const FormUrlEncoded := "application/x-www-form-urlencoded"
  const AuthorizationCodeGrant := "authorization_code"
  const RefreshTokenGrant := "refresh_token"

  /** The parameter names of the two requests, in the order they are sent. */
  const ExchangeParameterNames: seq<string> := ["client_id", "code_verifier", "grant_type", "code", "redirect_uri"]
  const RefreshParameterNames: seq<string> := ["client_id", "grant_type", "redirect_uri", "refresh_token"]

  /** Both requests are form-encoded POSTs to the configured token URL with no body. */
  predicate IsTokenEndpointPost(config: Config, request: Request)
  {
    && request.urlString == config.oauthTokenRequestUrl
    && request.httpMethod == Post
    && request.headers == map[ContentTypeHeader := FormUrlEncoded]
    && request.httpBody == None
  }

  /** The grant a request asks for, as the server reads it. */
  function GrantType(request: Request): Option<string>
  {
    FirstValue(request.queryItems, "grant_type")
  }

  /** The authorization-code-for-token exchange request. */
  function ExchangeRequest(config: Config, code: string, codeVerifier: string): (r: Request)
    ensures IsTokenEndpointPost(config, r)
    ensures Names(r.queryItems) == ExchangeParameterNames
    ensures forall i | 0 <= i < |r.queryItems| :: r.queryItems[i].value.Some?
  {
    Request(config.oauthTokenRequestUrl, Post, map[ContentTypeHeader := FormUrlEncoded], None, [
      QueryItem("client_id", Some(config.clientId)),
      QueryItem("code_verifier", Some(codeVerifier)),
      QueryItem("grant_type", Some(AuthorizationCodeGrant)),
      QueryItem("code", Some(code)),
      QueryItem("redirect_uri", Some(config.redirectUri))
    ])
  }

  /** A server reading the exchange request finds the configured client and
      redirect, the authorization-code grant, and exactly the code and verifier
      it was built from; it finds no refresh token. */
  lemma ExchangeRequestParameters(config: Config, code: string, codeVerifier: string)
    ensures var items := ExchangeRequest(config, code, codeVerifier).queryItems;
      && FirstValue(items, "client_id") == Some(config.clientId)
      && FirstValue(items, "code_verifier") == Some(codeVerifier)
      && FirstValue(items, "grant_type") == Some(AuthorizationCodeGrant)
      && FirstValue(items, "code") == Some(code)
      && FirstValue(items, "redirect_uri") == Some(config.redirectUri)
      && FirstValue(items, "refresh_token") == None
  {
    var items := ExchangeRequest(config, code, codeVerifier).queryItems;
    assert FirstNamedAt(items, "client_id", 0);
    assert FirstNamedAt(items, "code_verifier", 1);
    assert FirstNamedAt(items, "grant_type", 2);
    assert FirstNamedAt(items, "code", 3);
    assert FirstNamedAt(items, "redirect_uri", 4);
  }

  /** The refresh-token grant request. */
  function RefreshRequest(config: Config, refreshToken: string): (r: Request)
    ensures IsTokenEndpointPost(config, r)
    ensures Names(r.queryItems) == RefreshParameterNames
    ensures forall i | 0 <= i < |r.queryItems| :: r.queryItems[i].value.Some?
  {
    Request(config.oauthTokenRequestUrl, Post, map[ContentTypeHeader := FormUrlEncoded], None, [
      QueryItem("client_id", Some(config.clientId)),
      QueryItem("grant_type", Some(RefreshTokenGrant)),
      QueryItem("redirect_uri", Some(config.redirectUri)),
      QueryItem("refresh_token", Some(refreshToken))
    ])
  }

  /** A server reading the refresh request finds the configured client and
      redirect, the refresh grant and exactly the given refresh token; it finds
      neither a code nor a verifier. */
  lemma RefreshRequestParameters(config: Config, refreshToken: string)
    ensures var items := RefreshRequest(config, refreshToken).queryItems;
      && FirstValue(items, "client_id") == Some(config.clientId)
      && FirstValue(items, "grant_type") == Some(RefreshTokenGrant)
      && FirstValue(items, "redirect_uri") == Some(config.redirectUri)
      && FirstValue(items, "refresh_token") == Some(refreshToken)
      && FirstValue(items, "code") == None
      && FirstValue(items, "code_verifier") == None
  {
    var items := RefreshRequest(config, refreshToken).queryItems;
    assert FirstNamedAt(items, "client_id", 0);
    assert FirstNamedAt(items, "grant_type", 1);
    assert FirstNamedAt(items, "redirect_uri", 2);
    assert FirstNamedAt(items, "refresh_token", 3);
  }

  /** The two requests can never be mistaken for each other by their grant. */
  lemma GrantsDistinguishRequests(config: Config, code: string, codeVerifier: string, refreshToken: string)
    ensures GrantType(ExchangeRequest(config, code, codeVerifier)) == Some(AuthorizationCodeGrant)
    ensures GrantType(RefreshRequest(config, refreshToken)) == Some(RefreshTokenGrant)
  {
    ExchangeRequestParameters(config, code, codeVerifier);
    RefreshRequestParameters(config, refreshToken);
  }

  /** `HTTPURLResponse.statusCode`, absent when the reply is not an HTTP one. */
  datatype HttpResponse = HttpResponse(statusCode: Option<int>, data: Bytes)

  /** What the data task delivers: a reply, or the transport's own error. */
  datatype Transport = Delivered(response: HttpResponse) | TransportError(description: string)

  /** The library's notion of success: any 2xx or 3xx status. */
  predicate IsSuccessStatus(statusCode: int) {
    200 <= statusCode < 400
  }

  /** The status gate: a reply is accepted exactly when it has a status code in
      [200, 400), and then its data go on untouched. */
  function AcceptResponse(response: HttpResponse): (r: Result<Bytes, Error>)
    ensures r.Success? <==> response.statusCode.Some? && 200 <= response.statusCode.value < 400
    ensures r.Success? ==> r.value == response.data
    ensures response.statusCode.None? ==> r == Failure(MissingHttpStatusCode)
    ensures response.statusCode.Some? && r.Failure? ==> r == Failure(HttpStatusRejected(response.statusCode.value))
  {
    match response.statusCode
    case None => Failure(MissingHttpStatusCode)
    case Some(status) =>
      if IsSuccessStatus(status) then Success(response.data)
      else Failure(HttpStatusRejected(status))
  }

  /** The edges of the accepted range. */
  lemma StatusGateBoundaries(data: Bytes)
    ensures AcceptResponse(HttpResponse(Some(200), data)) == Success(data)
    ensures AcceptResponse(HttpResponse(Some(399), data)) == Success(data)
    ensures AcceptResponse(HttpResponse(Some(199), data)) == Failure(HttpStatusRejected(199))
    ensures AcceptResponse(HttpResponse(Some(400), data)) == Failure(HttpStatusRejected(400))
    ensures AcceptResponse(HttpResponse(None, data)) == Failure(MissingHttpStatusCode)
  {
  }

  /** A full reply from the token endpoint: transport, status gate, JSON parse
      (the library's `JSONDecoder`, passed in) and field decoding, in that
      order; the first failing stage's error is the result. */
  function ReceiveToken(reply: Transport, parseJson: Bytes -> Option<Json>): (r: Result<Token, Error>)
    ensures r.Success? <==>
      && reply.Delivered?
      && AcceptResponse(reply.response).Success?
      && parseJson(reply.response.data).Some?
      && DecodeToken(parseJson(reply.response.data).value).Success?
    ensures r.Success? ==> Success(r.value) == DecodeToken(parseJson(reply.response.data).value)
    ensures reply.TransportError? ==> r == Failure(TransportFailed(reply.description))
    ensures reply.Delivered? && AcceptResponse(reply.response).Failure? ==> r == AcceptResponse(reply.response).PropagateFailure()
    ensures reply.Delivered? && AcceptResponse(reply.response).Success? && parseJson(reply.response.data).None? ==> r == Failure(UnreadableJson)
    ensures (reply.Delivered? && AcceptResponse(reply.response).Success? && parseJson(reply.response.data).Some?
             && DecodeToken(parseJson(reply.response.data).value).Failure?) ==>
      r == Failure(Decode(DecodeToken(parseJson(reply.response.data).value).error))
  {
    match reply
    case TransportError(description) => Failure(TransportFailed(description))
    case Delivered(response) =>
      var data :- AcceptResponse(response);
      match parseJson(data)
      case None => Failure(UnreadableJson)
      case Some(json) =>
        match DecodeToken(json)
        case Failure(reason) => Failure(Decode(reason))
        case Success(token) => Success(token)
  }

  /** A rejected status never reaches the decoder, however good the body:
      a 4xx or 5xx reply carrying a well-formed token is still a failure. */
  lemma RejectedStatusNeverDecodes(status: int, data: Bytes, parseJson: Bytes -> Option<Json>)
    requires !(200 <= status < 400)
    ensures ReceiveToken(Delivered(HttpResponse(Some(status), data)), parseJson) == Failure(HttpStatusRejected(status))
  {
  }
}
