/** `AppleProvider` (AppleAuthProvider.swift): Sign in with Apple, exchanged
    for a Firebase session, completing with a `SimplifiedAuthUser`. */
module AppleAuthProvider {
  import opened AuthTypes
  import opened AppleAuthorization
  import opened FirebaseConfig
  import Nonce
  import Digest

  /** Code 5: Firebase answered with neither an error nor a result. */
  const NoAuthResult: AuthError := KitError(5, "No authentication result returned.")

  /** `handleAppleAuthorization(authorization:completion:)`. `currentNonce` is
      the provider's stored nonce, `utf8` decodes the token bytes and `signIn`
      is Firebase's answer to a credential. */
  function HandleAppleAuthorization(
    auth: ASAuthorization,
    currentNonce: Option<string>,
    utf8: seq<UInt8> -> Option<string>,
    signIn: OAuthCredential -> AuthReply): (r: Attempt<SimplifiedAuthUser>)
    ensures r.result == Failure(InvalidCredential) <==> IdTokenString(auth, utf8).None?
    ensures r.result == Failure(NoNonce) <==> IdTokenString(auth, utf8).Some? && currentNonce.None?
    ensures r.calls != [] <==> IdTokenString(auth, utf8).Some? && currentNonce.Some?
    ensures r.calls != [] ==>
      var sent := AppleCredential(IdTokenString(auth, utf8).value, currentNonce.value, auth.credential.fullName);
      var reply := signIn(sent);
      && r.calls == [FirebaseSignIn(sent)]
      && (reply.error.Some? ==> r.result == Failure(FirebaseFailed(reply.error.value)))
      && (reply.error.None? && reply.authResult.None? ==> r.result == Failure(NoAuthResult))
      && (r.result.Success? <==> reply.error.None? && reply.authResult.Some?)
      && (r.result.Success? ==> r.result.value == UserFrom(reply.authResult.value.user))
  {
    match AppleCredentialFor(auth, currentNonce, utf8)
    case Failure(e) => Attempt(Failure(e), [])
    case Success(credential) =>
      var reply := signIn(credential);
      var result :=
        if reply.error.Some? then Failure(FirebaseFailed(reply.error.value))
        else if reply.authResult.None? then Failure(NoAuthResult)
        else Success(UserFrom(reply.authResult.value.user));
      Attempt(result, [FirebaseSignIn(credential)])
  }

  /** Every failure the handler delivers is one of the library's own errors,
      with code 2, 3, 4 or 5, and only code 4 carries an underlying error. */
  lemma HandleAppleFailureCodes(
    auth: ASAuthorization,
    currentNonce: Option<string>,
    utf8: seq<UInt8> -> Option<string>,
    signIn: OAuthCredential -> AuthReply)
    ensures var r := HandleAppleAuthorization(auth, currentNonce, utf8, signIn).result;
      r.Failure? ==>
        && r.error.domain == KitDomain
        && 2 <= r.error.code <= 5
        && (r.error.underlying.Some? <==> r.error.code == 4)
  {
  }

  /** The stored nonce is what is sent to Firebase, so two providers that
      differ only in their stored nonce send different credentials. */
  lemma HandleAppleSendsStoredNonce(
    auth: ASAuthorization,
    n1: string,
    n2: string,
    utf8: seq<UInt8> -> Option<string>,
    signIn: OAuthCredential -> AuthReply)
    requires IdTokenString(auth, utf8).Some?
    requires n1 != n2
    ensures HandleAppleAuthorization(auth, Some(n1), utf8, signIn).calls
         != HandleAppleAuthorization(auth, Some(n2), utf8, signIn).calls
  {
    var a := HandleAppleAuthorization(auth, Some(n1), utf8, signIn);
    var b := HandleAppleAuthorization(auth, Some(n2), utf8, signIn);
    assert a.calls[0].credential.rawNonce == n1;
    assert b.calls[0].credential.rawNonce == n2;
  }

  /** `AppleProvider`: the stored nonce, the delegate kept alive while the
      controller runs, and `delivered`, the values handed so far to the
      completion handler of the sign-in this provider was created for. */
  class AppleProvider {
    var currentNonce: Option<string>
    var activeDelegate: AppleSignInDelegate?
    var delivered: seq<Result<SimplifiedAuthUser>>

    constructor()
      ensures currentNonce == None && activeDelegate == null && delivered == []
    {
      currentNonce := None;
      activeDelegate := null;
      delivered := [];
    }

    /** `startAppleSignIn(from:completion:)`. `rng` stands for the random
        bytes the nonce generator draws, `hash` for SHA-256. The returned
        request is the one performed; None when the configuration failed. */
    method StartAppleSignIn(
      firebase: FirebaseApp,
      plist: Option<FirebaseOptions>,
      rng: seq<UInt8>,
      hash: string -> Digest.Sha256Digest) returns (request: Option<AppleIDRequest>)
      requires |rng| % Nonce.BatchSize == 0 && Nonce.DefaultLength <= |Nonce.Accepted(rng)|
      modifies this, firebase
      ensures firebase.options == ConfigStep(old(firebase.options), plist).0
      ensures ConfigStep(old(firebase.options), plist).1.Fail? ==>
        && delivered == old(delivered) + [Failure(ConfigStep(old(firebase.options), plist).1.error)]
        && currentNonce == old(currentNonce)
        && activeDelegate == old(activeDelegate)
        && request == None
      ensures ConfigStep(old(firebase.options), plist).1.Pass? ==>
        var nonce := Nonce.NonceFrom(rng, Nonce.DefaultLength);
        && delivered == old(delivered)
        && currentNonce == Some(nonce)
        && request == Some(AppleIDRequest(RequestedScopes, Digest.Sha256(hash, nonce)))
        && activeDelegate != null && fresh(activeDelegate) && activeDelegate.kit == this
    {
      var configured := EnsureFirebaseConfigured(firebase, plist);
      if configured.Fail? {
        delivered := delivered + [Failure(configured.error)];
        return None;
      }
      var nonce, _ := Nonce.RandomNonceString(Nonce.DefaultLength, rng);
      currentNonce := Some(nonce);
      request := Some(AppleIDRequest(RequestedScopes, Digest.Sha256(hash, nonce)));
      var delegate := new AppleSignInDelegate(this);
      activeDelegate := delegate;
    }

    /** The handler run by the delegate: one value goes to the completion. */
    method HandleAuthorization(
      auth: ASAuthorization,
      utf8: seq<UInt8> -> Option<string>,
      signIn: OAuthCredential -> AuthReply) returns (calls: seq<SdkCall>)
      modifies this`delivered
      ensures var a := HandleAppleAuthorization(auth, currentNonce, utf8, signIn);
        delivered == old(delivered) + [a.result] && calls == a.calls
    {
      var a := HandleAppleAuthorization(auth, currentNonce, utf8, signIn);
      delivered := delivered + [a.result];
      calls := a.calls;
    }
  }

  /** `AppleSignInDelegate`: forwards the controller's answer to its
      provider. */
  class AppleSignInDelegate {
    const kit: AppleProvider

    constructor(kit: AppleProvider)
      ensures this.kit == kit
    {
      this.kit := kit;
    }

    /** An authorization is handed to the provider's handler. */
    method DidCompleteWithAuthorization(
      auth: ASAuthorization,
      utf8: seq<UInt8> -> Option<string>,
      signIn: OAuthCredential -> AuthReply) returns (calls: seq<SdkCall>)
      modifies kit`delivered
      ensures var a := HandleAppleAuthorization(auth, kit.currentNonce, utf8, signIn);
        kit.delivered == old(kit.delivered) + [a.result] && calls == a.calls
    {
      calls := kit.HandleAuthorization(auth, utf8, signIn);
    }

    /** An error from the controller is delivered as it is. */
    method DidCompleteWithError(error: AuthError)
      modifies kit`delivered
      ensures kit.delivered == old(kit.delivered) + [Failure(error)]
    {
      kit.delivered := kit.delivered + [Failure(error)];
    }
  }

  /** `signInWithApple(from:completion:)`: a fresh provider per sign-in. */
  method SignInWithApple(
    firebase: FirebaseApp,
    plist: Option<FirebaseOptions>,
    rng: seq<UInt8>,
    hash: string -> Digest.Sha256Digest) returns (kit: AppleProvider, request: Option<AppleIDRequest>)
    requires |rng| % Nonce.BatchSize == 0 && Nonce.DefaultLength <= |Nonce.Accepted(rng)|
    modifies firebase
    ensures fresh(kit)
    ensures firebase.options == ConfigStep(old(firebase.options), plist).0
    ensures ConfigStep(old(firebase.options), plist).1.Fail? ==>
      kit.delivered == [Failure(ConfigStep(old(firebase.options), plist).1.error)]
      && kit.currentNonce == None && request == None
    ensures ConfigStep(old(firebase.options), plist).1.Pass? ==>
      kit.delivered == [] && kit.currentNonce == Some(Nonce.NonceFrom(rng, Nonce.DefaultLength))
      && request.Some? && request.value.nonce == Digest.Sha256(hash, kit.currentNonce.value)
  {
    kit := new AppleProvider();
    request := kit.StartAppleSignIn(firebase, plist, rng, hash);
  }
}
