/** What both Apple sign-in handlers share: the AuthenticationServices values
    they receive and the first two guards of `handleAppleAuthorization`,
    which turn an authorization into a Firebase Apple credential. */
module AppleAuthorization {
  import opened AuthTypes

  /** `authorization.credential`: an Apple ID credential, with its optional
      identity token (raw bytes) and full name, or any other kind. */
  datatype AuthorizationCredential =
    | AppleIDCredential(identityToken: Option<seq<UInt8>>, fullName: Option<string>)
    | OtherCredential

  datatype ASAuthorization = ASAuthorization(credential: AuthorizationCredential)

  datatype Scope = FullName | Email

  /** The Apple ID request the controller performs. */
  datatype AppleIDRequest = AppleIDRequest(requestedScopes: seq<Scope>, nonce: string)

  const RequestedScopes: seq<Scope> := [FullName, Email]

  /** Code 3: the credential is not an Apple ID one, or has no usable token. */
  const InvalidCredential: AuthError := KitError(3, "Invalid Apple credential.")

  /** Code 2: no nonce was stored before the authorization arrived. */
  const NoNonce: AuthError := KitError(2, "Invalid state: No nonce available.")

  /** Code 4: Firebase refused the Apple credential; the refusal is kept as
      the underlying error and its description is quoted. */
  function FirebaseFailed(e: AuthError): (r: AuthError)
    ensures r.domain == KitDomain && r.code == 4
    ensures r.underlying == Some(e) && r != e
    ensures r.description == "Firebase authentication failed: " + e.description
  {
    AuthError(KitDomain, 4, "Firebase authentication failed: " + e.description, Some(e))
  }

  /** The identity token as text, when the authorization carries an Apple ID
      credential whose token is present and decodes as UTF-8. */
  function IdTokenString(auth: ASAuthorization, utf8: seq<UInt8> -> Option<string>): (r: Option<string>)
    ensures r.Some? <==>
      auth.credential.AppleIDCredential? && auth.credential.identityToken.Some?
      && utf8(auth.credential.identityToken.value).Some?
    ensures r.Some? ==> r == utf8(auth.credential.identityToken.value)
  {
    match auth.credential
    case AppleIDCredential(token, _) =>
      if token.Some? then utf8(token.value) else None
    case OtherCredential => None
  }

  /** The two guards in order and the credential they lead to: a bad
      credential is reported before a missing nonce, and the credential sent
      to Firebase carries the token, the raw stored nonce and the full name. */
  function AppleCredentialFor(auth: ASAuthorization, currentNonce: Option<string>, utf8: seq<UInt8> -> Option<string>): (r: Result<OAuthCredential>)
    ensures r == Failure(InvalidCredential) <==> IdTokenString(auth, utf8).None?
    ensures r == Failure(NoNonce) <==> IdTokenString(auth, utf8).Some? && currentNonce.None?
    ensures r.Success? <==> IdTokenString(auth, utf8).Some? && currentNonce.Some?
    ensures r.Success? ==>
      r.value == AppleCredential(IdTokenString(auth, utf8).value, currentNonce.value, auth.credential.fullName)
  {
    match IdTokenString(auth, utf8)
    case None => Failure(InvalidCredential)
    case Some(idToken) =>
      match currentNonce
      case None => Failure(NoNonce)
      case Some(nonce) => Success(AppleCredential(idToken, nonce, auth.credential.fullName))
  }
}
