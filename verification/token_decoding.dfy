/** Decoding of the token endpoint's JSON reply into a token record, with the
    same required and optional fields and the same key names as the library. */
module TokenDecoding {
  import opened Wrappers
  import opened Errors

  /** A parsed JSON value. Numbers written without fraction or exponent are
      `JInt`; every other number is `JFraction`. */
  datatype Json =
    | JNull
    | JBool(b: bool)
    | JInt(i: int)
    | JFraction
    | JString(s: string)
    | JArray(elements: seq<Json>)
    | JObject(members: map<string, Json>)

  /** `OAuthPKCETokenDecodable`. */
  datatype Token = Token(
    accessToken: string,
    expiresIn: int,
    refreshToken: string,
    scope: Option<string>,
    tokenType: string
  )

  /** The JSON names of `CodingKeys`. */
  const AccessTokenKey := "access_token"
  const ExpiresInKey := "expires_in"
  const RefreshTokenKey := "refresh_token"
  const ScopeKey := "scope"
  const TokenTypeKey := "token_type"

  const CodingKeys: set<string> := {AccessTokenKey, ExpiresInKey, RefreshTokenKey, ScopeKey, TokenTypeKey}

  /** Swift's `Int` is 64 bits wide on every device the library runs on. */
  const IntMin: int := -0x8000_0000_0000_0000
  const IntMax: int := 0x7fff_ffff_ffff_ffff

  predicate FitsInInt(n: int) {
    IntMin <= n <= IntMax
  }

  /** `container.decode(String.self, forKey:)`. */
  function DecodeString(members: map<string, Json>, key: string): (r: Result<string, DecodeError>)
    ensures r.Success? <==> key in members && members[key].JString?
    ensures r.Success? ==> r.value == members[key].s
  {
    if key !in members then Failure(KeyNotFound(key))
    else match members[key]
      case JString(s) => Success(s)
      case JNull => Failure(ValueNotFound(key))
      case _ => Failure(TypeMismatch(key))
  }

  /** `container.decode(Int.self, forKey:)`: a non-integral or out-of-range
      number is corrupt data, any other non-number a type mismatch. */
  function DecodeInt(members: map<string, Json>, key: string): (r: Result<int, DecodeError>)
    ensures r.Success? <==> key in members && members[key].JInt? && FitsInInt(members[key].i)
    ensures r.Success? ==> r.value == members[key].i
  {
    if key !in members then Failure(KeyNotFound(key))
    else match members[key]
      case JInt(n) => if FitsInInt(n) then Success(n) else Failure(DataCorrupted(key))
      case JFraction => Failure(DataCorrupted(key))
      case JNull => Failure(ValueNotFound(key))
      case _ => Failure(TypeMismatch(key))
  }

  /** `container.decodeIfPresent(String.self, forKey:)`: an absent key and an
      explicit `null` both give `nil`. */
  function DecodeStringIfPresent(members: map<string, Json>, key: string): (r: Result<Option<string>, DecodeError>)
    ensures r.Success? <==> key !in members || members[key].JNull? || members[key].JString?
    ensures r == Success(None) <==> key !in members || members[key].JNull?
    ensures r.Success? && r.value.Some? ==> members[key] == JString(r.value.value)
  {
    if key !in members then Success(None)
    else match members[key]
      case JString(s) => Success(Some(s))
      case JNull => Success(None)
      case _ => Failure(TypeMismatch(key))
  }

  /** The fields are read in declaration order, so the first field that fails
      decides the error. */
  function DecodeToken(json: Json): (r: Result<Token, DecodeError>)
    ensures r.Success? <==>
      && json.JObject?
      && DecodeString(json.members, AccessTokenKey).Success?
      && DecodeInt(json.members, ExpiresInKey).Success?
      && DecodeString(json.members, RefreshTokenKey).Success?
      && DecodeStringIfPresent(json.members, ScopeKey).Success?
      && DecodeString(json.members, TokenTypeKey).Success?
    ensures r.Success? ==>
      && json.members[AccessTokenKey] == JString(r.value.accessToken)
      && json.members[ExpiresInKey] == JInt(r.value.expiresIn)
      && json.members[RefreshTokenKey] == JString(r.value.refreshToken)
      && json.members[TokenTypeKey] == JString(r.value.tokenType)
      && (r.value.scope.None? <==> ScopeKey !in json.members || json.members[ScopeKey].JNull?)
      && (r.value.scope.Some? ==> json.members[ScopeKey] == JString(r.value.scope.value))
    ensures !json.JObject? ==> r == Failure(NotAnObject)
    ensures json.JObject? ==> (r.Failure? <==> FirstFieldError(json.members).Some?)
    ensures json.JObject? && r.Failure? ==> r.error == FirstFieldError(json.members).value
  {
    if !json.JObject? then Failure(NotAnObject)
    else
      var m := json.members;
      var accessToken :- DecodeString(m, AccessTokenKey);
      var expiresIn :- DecodeInt(m, ExpiresInKey);
      var refreshToken :- DecodeString(m, RefreshTokenKey);
      var scope :- DecodeStringIfPresent(m, ScopeKey);
      var tokenType :- DecodeString(m, TokenTypeKey);
      Success(Token(accessToken, expiresIn, refreshToken, scope, tokenType))
  }

  /** The error of the first field, in declaration order, that fails to
      decode, or nothing when every field decodes. */
  function FirstFieldError(members: map<string, Json>): Option<DecodeError>
  {
    if DecodeString(members, AccessTokenKey).Failure? then Some(DecodeString(members, AccessTokenKey).error)
    else if DecodeInt(members, ExpiresInKey).Failure? then Some(DecodeInt(members, ExpiresInKey).error)
    else if DecodeString(members, RefreshTokenKey).Failure? then Some(DecodeString(members, RefreshTokenKey).error)
    else if DecodeStringIfPresent(members, ScopeKey).Failure? then Some(DecodeStringIfPresent(members, ScopeKey).error)
    else if DecodeString(members, TokenTypeKey).Failure? then Some(DecodeString(members, TokenTypeKey).error)
    else None
  }

  /** The JSON object a conforming server sends for `token`. */
  function EncodeToken(token: Token): (json: Json)
    ensures json.JObject?
    ensures json.members.Keys <= CodingKeys
  {
    var required := map[
      AccessTokenKey := JString(token.accessToken),
      ExpiresInKey := JInt(token.expiresIn),
      RefreshTokenKey := JString(token.refreshToken),
      TokenTypeKey := JString(token.tokenType)
    ];
    match token.scope
    case None => JObject(required)
    case Some(s) => JObject(required[ScopeKey := JString(s)])
  }

  /** Every token whose lifetime fits in `Int` survives a trip through its JSON form. */
  lemma DecodeEncodeRoundTrip(token: Token)
    requires FitsInInt(token.expiresIn)
    ensures DecodeToken(EncodeToken(token)) == Success(token)
  {
  }

  /** Two objects that agree on the `CodingKeys` decode alike: keys outside
      them never change the outcome. */
  lemma DecodeIgnoresUnknownKeys(a: map<string, Json>, b: map<string, Json>)
    requires forall k | k in CodingKeys :: (k in a <==> k in b)
    requires forall k | k in CodingKeys && k in a :: a[k] == b[k]
    ensures DecodeToken(JObject(a)) == DecodeToken(JObject(b))
  {
  }

  /** A reply lacking any one of the four required fields never decodes. */
  lemma RequiredFieldsMissing(members: map<string, Json>)
    requires
      || AccessTokenKey !in members
      || ExpiresInKey !in members
      || RefreshTokenKey !in members
      || TokenTypeKey !in members
    ensures DecodeToken(JObject(members)).Failure?
  {
  }
}
