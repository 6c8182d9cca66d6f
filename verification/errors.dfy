/** The reasons a flow can fail, one per guard or throwing call of the library. */
module Errors {

  /** Why decoding a token response object failed, named after Swift's `DecodingError` cases. */
  datatype DecodeError =
    | NotAnObject                 // the top-level JSON value is not a keyed container
    | KeyNotFound(key: string)    // a required key is absent
    | ValueNotFound(key: string)  // a required key holds `null`
    | TypeMismatch(key: string)   // the value has the wrong JSON type
    | DataCorrupted(key: string)  // a number that is not an integer or does not fit in `Int`

  datatype Error =
    | VerifierGenerationFailed
    | ChallengeGenerationFailed
    | AuthorizeUrlBuildFailed(authorizeUrl: string)
    | Presentation(description: string)      // the error handed to the browser callback
    | MissingAuthorizationCode
    | TransportFailed(description: string)   // the data task itself failed
    | MissingHttpStatusCode
    | HttpStatusRejected(statusCode: int)
    | UnreadableJson                         // the body is not JSON at all
    | Decode(reason: DecodeError)
}
