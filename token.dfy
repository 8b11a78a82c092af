/**
 * The Firebase ID-token wrapper built from a request's Authorization
 * header (token/firebase.go). The header is split the way RFC 6750,
 * section 2.1, describes a bearer credential, with the scheme "Bearer "
 * compared case-sensitively. Verifying the token with Firebase runs in a
 * goroutine and is not part of this model; only its guard is.
 */
module FirebaseToken {
  import opened Wrappers
  import opened Strings

  /** The tokenState of a verified token (token.OK). */
  const OK: string := "OK"

  const BearerSchema: string := "Bearer "
  const HeaderNotProvided: string := "authorization header is not provided"
  const NotBearerToken: string := "Not a Bearer token"
  const TokenIsNil: string := "token is nil"
  const ClientIsNil: string := "client cannot be nil"

  /** A token as NewFirebaseToken leaves it: the credential, if any, and the diagnostic state, if set. */
  datatype Token = Token(tokenString: Option<string>, state: Option<string>)

  /** The Authorization header a client sends for a bearer credential. */
  function AuthorizationHeader(credential: string): string {
    BearerSchema + credential
  }

  /** NewFirebaseToken, where `hasClient` says whether the Firebase client is non-nil. */
  function NewFirebaseToken(authHeader: string, hasClient: bool): (r: Result<Token>)
    ensures r.Err? <==> !hasClient
    ensures r.Err? ==> r.msg == ClientIsNil
    ensures r.Ok? ==> (r.value.tokenString.Some? <==> HasPrefix(authHeader, BearerSchema))
    ensures r.Ok? ==> (r.value.tokenString.Some? <==> r.value.state.None?)
    ensures r.Ok? && r.value.tokenString.Some? ==> AuthorizationHeader(r.value.tokenString.value) == authHeader
    ensures r.Ok? && authHeader == "" ==> r.value.state == Some(HeaderNotProvided)
    ensures r.Ok? && authHeader != "" && r.value.tokenString.None? ==> r.value.state == Some(NotBearerToken)
  {
    if !hasClient then Err(ClientIsNil)
    else if authHeader == "" then Ok(Token(None, Some(HeaderNotProvided)))
    else if !HasPrefix(authHeader, BearerSchema) then Ok(Token(None, Some(NotBearerToken)))
    else Ok(Token(Some(authHeader[|BearerSchema|..]), None))
  }

  /** GetTokenString: the credential, or an error when there is none. */
  function GetTokenString(t: Token): (r: Result<string>)
    ensures r.Ok? <==> t.tokenString.Some?
    ensures r.Ok? ==> r.value == t.tokenString.value
  {
    match t.tokenString
    case None => Err(TokenIsNil)
    case Some(s) => Ok(s)
  }

  /**
   * The guard at the head of ExecuteTokenStateUpdate: without a credential
   * it returns an error at once; otherwise it starts the verification
   * (not modelled) and returns no error.
   */
  function ExecuteTokenStateUpdate(t: Token): (err: Option<string>)
    ensures err.Some? <==> t.tokenString.None?
  {
    if t.tokenString.None? then Some(TokenIsNil) else None
  }

  /** A bearer header round-trips: the credential read back is the one sent. */
  lemma {:induction false} BearerRoundTrip(credential: string)
    ensures NewFirebaseToken(AuthorizationHeader(credential), true) == Ok(Token(Some(credential), None))
    ensures GetTokenString(NewFirebaseToken(AuthorizationHeader(credential), true).value) == Ok(credential)
  {
    var h := AuthorizationHeader(credential);
    assert HasPrefix(h, BearerSchema);
    assert h[|BearerSchema|..] == credential;
  }

  /** The scheme is compared case-sensitively: a lower-case "bearer " header carries no credential. */
  lemma LowerCaseSchemeRejected(credential: string)
    ensures NewFirebaseToken("bearer " + credential, true) == Ok(Token(None, Some(NotBearerToken)))
  {
    assert ("bearer " + credential)[0] == 'b';
  }

  /** Reading the credential and starting the state update fail on exactly the same tokens. */
  lemma GuardsAgree(header: string)
    ensures var r := NewFirebaseToken(header, true);
            r.Ok? && GetTokenString(r.value).Err? <==> r.Ok? && ExecuteTokenStateUpdate(r.value).Some?
    ensures var r := NewFirebaseToken(header, true);
            GetTokenString(r.value).Err? <==> !HasPrefix(header, BearerSchema)
  {
  }
}
