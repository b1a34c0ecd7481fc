/** `SimplifiedAuthKit` (SimplifiedAuthKit.swift): the kit's own Sign in
    with Apple handler, the one its public button API reaches, which completes with the Apple authorization itself
    once Firebase has not refused it. */
module SimplifiedAuthKit {
  import opened AuthTypes
  import opened AppleAuthorization
  import opened FirebaseConfig
  import AppleAuthProvider
  import Nonce
  import Digest

  /** `handleAppleAuthorization(authorization:overallCompletion:)`. Unlike the
      provider's handler it does not look at the auth result: any answer
      without an error counts as success. */
  function HandleAppleAuthorization(
    auth: ASAuthorization,
    currentNonce: Option<string>,
    utf8: seq<UInt8> -> Option<string>,
    signIn: OAuthCredential -> AuthReply): (r: Attempt<ASAuthorization>)
    ensures r.result == Failure(InvalidCredential) <==> IdTokenString(auth, utf8).None?
    ensures r.result == Failure(NoNonce) <==> IdTokenString(auth, utf8).Some? && currentNonce.None?
    ensures r.calls != [] <==> IdTokenString(auth, utf8).Some? && currentNonce.Some?
    ensures r.calls != [] ==>
      var sent := AppleCredential(IdTokenString(auth, utf8).value, currentNonce.value, auth.credential.fullName);
      var reply := signIn(sent);
      && r.calls == [FirebaseSignIn(sent)]
      && (reply.error.Some? ==> r.result == Failure(FirebaseFailed(reply.error.value)))
      && (r.result.Success? <==> reply.error.None?)
    ensures r.result.Success? ==> r.result.value == auth
  {
    match AppleCredentialFor(auth, currentNonce, utf8)
    case Failure(e) => Attempt(Failure(e), [])
    case Success(credential) =>
      var reply := signIn(credential);
      if reply.error.Some? then Attempt(Failure(FirebaseFailed(reply.error.value)), [FirebaseSignIn(credential)])
      else Attempt(Success(auth), [FirebaseSignIn(credential)])
  }

  /** The two handlers make the same calls and fail alike, except when
      Firebase answers with neither an error nor a result: the provider then
      fails with code 5 while this handler reports success. */
  lemma HandlersAgreeExceptMissingResult(
    auth: ASAuthorization,
    currentNonce: Option<string>,
    utf8: seq<UInt8> -> Option<string>,
    signIn: OAuthCredential -> AuthReply)
    ensures
      var kitAttempt := HandleAppleAuthorization(auth, currentNonce, utf8, signIn);
      var current := AppleAuthProvider.HandleAppleAuthorization(auth, currentNonce, utf8, signIn);
      && kitAttempt.calls == current.calls
      && (kitAttempt.result.Failure? ==> current.result == Failure(kitAttempt.result.error))
      && (current.result.Success? ==> kitAttempt.result == Success(auth))
      && (kitAttempt.result.Success? && current.result.Failure? <==>
            kitAttempt.calls != [] && current.result == Failure(AppleAuthProvider.NoAuthResult))
  {
  }

  /** `SimplifiedAuthKit`: the stored nonce, the delegate kept alive while the
      controller runs, and `delivered`, the values handed so far to the
      completion handler of the sign-in. */
  class SimplifiedAuthKit {
    var currentNonce: Option<string>
    var activeDelegate: AppleSignInDelegate?
    var delivered: seq<Result<ASAuthorization>>

    constructor()
      ensures currentNonce == None && activeDelegate == null && delivered == []
    {
      currentNonce := None;
      activeDelegate := null;
      delivered := [];
    }

    /** `startAppleSignIn(from:completion:)`: the configuration check, then
        the nonce stored raw and sent hashed. None when the check threw. */
    method StartAppleSignIn(
      firebase: FirebaseApp,
      plist: Option<FirebaseOptions>,
      rng: seq<UInt8>,
      hash: string -> Digest.Sha256Digest) returns (request: Option<AppleIDRequest>)
      requires |rng| % Nonce.BatchSize == 0 && Nonce.DefaultLength <= |Nonce.Accepted(rng)|
      modifies this, firebase
      ensures firebase.options == ConfigStep(old(firebase.options), plist).0
      ensures ConfigStep(old(firebase.options), plist).1.Fail? ==>
        && delivered == old(delivered) + [Failure(ConfigStep(old(firebase.options), plist).1.error)]
        && currentNonce == old(currentNonce)
        && activeDelegate == old(activeDelegate)
        && request == None
      ensures ConfigStep(old(firebase.options), plist).1.Pass? ==>
        var nonce := Nonce.NonceFrom(rng, Nonce.DefaultLength);
        && delivered == old(delivered)
        && currentNonce == Some(nonce)
        && request == Some(AppleIDRequest(RequestedScopes, Digest.Sha256(hash, nonce)))
        && activeDelegate != null && fresh(activeDelegate) && activeDelegate.kit == this
    {
      var configured := EnsureFirebaseConfigured(firebase, plist);
      if configured.Fail? {
        delivered := delivered + [Failure(configured.error)];
        return None;
      }
      var nonce, _ := Nonce.RandomNonceString(Nonce.DefaultLength, rng);
      currentNonce := Some(nonce);
      request := Some(AppleIDRequest(RequestedScopes, Digest.Sha256(hash, nonce)));
      var delegate := new AppleSignInDelegate(this);
      activeDelegate := delegate;
    }

    /** The handler run by the delegate: one value goes to the completion. */
    method HandleAuthorization(
      auth: ASAuthorization,
      utf8: seq<UInt8> -> Option<string>,
      signIn: OAuthCredential -> AuthReply) returns (calls: seq<SdkCall>)
      modifies this`delivered
      ensures var a := HandleAppleAuthorization(auth, currentNonce, utf8, signIn);
        delivered == old(delivered) + [a.result] && calls == a.calls
    {
      var a := HandleAppleAuthorization(auth, currentNonce, utf8, signIn);
      delivered := delivered + [a.result];
      calls := a.calls;
    }
  }

  /** The tap action of `makeAppleButton(from:completion:)` and the
      `startAppleSignIn` extension of the Apple button: each sign-in runs on
      a fresh kit, so a kit's `delivered` log belongs to one sign-in. */
  method StartAppleSignInOnFreshKit(
    firebase: FirebaseApp,
    plist: Option<FirebaseOptions>,
    rng: seq<UInt8>,
    hash: string -> Digest.Sha256Digest) returns (kit: SimplifiedAuthKit, request: Option<AppleIDRequest>)
    requires |rng| % Nonce.BatchSize == 0 && Nonce.DefaultLength <= |Nonce.Accepted(rng)|
    modifies firebase
    ensures fresh(kit)
    ensures firebase.options == ConfigStep(old(firebase.options), plist).0
    ensures ConfigStep(old(firebase.options), plist).1.Fail? ==>
      kit.delivered == [Failure(ConfigStep(old(firebase.options), plist).1.error)]
      && kit.currentNonce == None && request == None
    ensures ConfigStep(old(firebase.options), plist).1.Pass? ==>
      kit.delivered == [] && kit.currentNonce == Some(Nonce.NonceFrom(rng, Nonce.DefaultLength))
      && request.Some? && request.value.nonce == Digest.Sha256(hash, kit.currentNonce.value)
  {
    kit := new SimplifiedAuthKit();
    request := kit.StartAppleSignIn(firebase, plist, rng, hash);
  }

  /** The kit's private `AppleSignInDelegate`. */
  class AppleSignInDelegate {
    const kit: SimplifiedAuthKit

    constructor(kit: SimplifiedAuthKit)
      ensures this.kit == kit
    {
      this.kit := kit;
    }

    method DidCompleteWithAuthorization(
      auth: ASAuthorization,
      utf8: seq<UInt8> -> Option<string>,
      signIn: OAuthCredential -> AuthReply) returns (calls: seq<SdkCall>)
      modifies kit`delivered
      ensures var a := HandleAppleAuthorization(auth, kit.currentNonce, utf8, signIn);
        kit.delivered == old(kit.delivered) + [a.result] && calls == a.calls
    {
      calls := kit.HandleAuthorization(auth, utf8, signIn);
    }

    /** An error from the controller is delivered as it is. */
    method DidCompleteWithError(error: AuthError)
      modifies kit`delivered
      ensures kit.delivered == old(kit.delivered) + [Failure(error)]
    {
      kit.delivered := kit.delivered + [Failure(error)];
    }
  }
}
