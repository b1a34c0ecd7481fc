/** `GoogleProvider` (GoogleProvider.swift): Google Sign-In exchanged for a
    Firebase session, guarded by a check of the app's URL schemes. */
module GoogleProvider {
  import opened AuthTypes
  import opened FirebaseConfig
  import AppleAuthorization

  /** The marker every reversed Google client ID contains. */
  const GoogleSchemeMarker: string := "googleusercontent.apps"

  /** Code 10: the app declares no URL scheme for the Google callback. */
  const MissingUrlScheme: AuthError :=
    KitError(10, "Google Sign-In skipped: missing reversed client ID in Info.plist > URL Types.")

  /** Code 6: the configured Firebase app has no client ID. */
  const MissingClientID: AuthError := KitError(6, "Missing Firebase clientID")

  /** Code 7: Google answered without a user or without an ID token. */
  const NoGoogleUser: AuthError := KitError(7, "No Google user or token")

  /** Code 8: Firebase answered with neither an error nor a result. */
  const NoFirebaseResult: AuthError := KitError(8, "No Firebase auth result")

  /** One entry of `CFBundleURLTypes`: its `CFBundleURLSchemes`, or None when
      that key is absent or not an array of strings. */
  datatype UrlTypeEntry = UrlTypeEntry(schemes: Option<seq<string>>)

  /** `needle` occurs in `s` starting at position k. */
  predicate OccursAt(s: string, needle: string, k: nat)
  {
    k + |needle| <= |s| && s[k..k + |needle|] == needle
  }

  /** `String.contains(_:)`, compared character by character. */
  predicate ContainsSubstring(s: string, needle: string)
  {
    exists k: nat :: k <= |s| && OccursAt(s, needle, k)
  }

  predicate IsGoogleScheme(scheme: string)
  {
    ContainsSubstring(scheme, GoogleSchemeMarker)
  }

  /** The existential the pre-check decides: some entry lists some scheme
      that contains the marker. */
  predicate DeclaresGoogleScheme(urlTypes: seq<UrlTypeEntry>)
  {
    exists i, j :: 0 <= i < |urlTypes| && urlTypes[i].schemes.Some?
      && 0 <= j < |urlTypes[i].schemes.value| && IsGoogleScheme(urlTypes[i].schemes.value[j])
  }

  /** `schemes.contains(where:)` over one entry's list. */
  function AnyGoogleScheme(schemes: seq<string>): (r: bool)
    ensures r <==> exists j :: 0 <= j < |schemes| && IsGoogleScheme(schemes[j])
  {
    if schemes == [] then false
    else IsGoogleScheme(schemes[0]) || AnyGoogleScheme(schemes[1..])
  }

  /** The `for` loop of the pre-check: entries in order, skipping those
      without a string list, stopping at the first match. */
  function ScanUrlTypes(urlTypes: seq<UrlTypeEntry>): (r: bool)
    ensures r <==> DeclaresGoogleScheme(urlTypes)
  {
    if urlTypes == [] then false
    else if urlTypes[0].schemes.Some? && AnyGoogleScheme(urlTypes[0].schemes.value) then
      assert DeclaresGoogleScheme(urlTypes) by {
        var j :| 0 <= j < |urlTypes[0].schemes.value| && IsGoogleScheme(urlTypes[0].schemes.value[j]);
        assert 0 <= 0 < |urlTypes| && urlTypes[0].schemes.Some?;
      }
      true
    else
      var rest := ScanUrlTypes(urlTypes[1..]);
      assert rest ==> DeclaresGoogleScheme(urlTypes) by {
        if rest {
          var i, j :| 0 <= i < |urlTypes[1..]| && urlTypes[1..][i].schemes.Some?
            && 0 <= j < |urlTypes[1..][i].schemes.value| && IsGoogleScheme(urlTypes[1..][i].schemes.value[j]);
          assert urlTypes[i + 1] == urlTypes[1..][i];
        }
      }
      assert DeclaresGoogleScheme(urlTypes) ==> rest by {
        if DeclaresGoogleScheme(urlTypes) {
          var i, j :| 0 <= i < |urlTypes| && urlTypes[i].schemes.Some?
            && 0 <= j < |urlTypes[i].schemes.value| && IsGoogleScheme(urlTypes[i].schemes.value[j]);
          assert i != 0;
          assert urlTypes[1..][i - 1] == urlTypes[i];
        }
      }
      rest
  }

  /** `hasGoogleURLScheme()`. `urlTypes` is the `CFBundleURLTypes` value of
      Info.plist, None when absent or not an array of dictionaries. */
  function HasGoogleURLScheme(urlTypes: Option<seq<UrlTypeEntry>>): (r: bool)
    ensures r <==> urlTypes.Some? && DeclaresGoogleScheme(urlTypes.value)
  {
    urlTypes.Some? && ScanUrlTypes(urlTypes.value)
  }

  /** The Google user of a sign-in result: an optional ID token and the
      access token. */
  datatype GidUser = GidUser(idToken: Option<string>, accessToken: string)

  /** The `(result, error)` pair of the Google sign-in callback; `result`
      holds the optional user. */
  datatype GidReply = GidReply(result: Option<Option<GidUser>>, error: Option<AuthError>)

  /** The Google user and token the guard at the callback's start looks for. */
  function HasGoogleToken(reply: GidReply): (r: bool)
    ensures r ==> reply.result.Some? && reply.result.value.Some?
    ensures reply.result == Some(None) || reply.result.None? ==> !r
    ensures reply.result.Some? && reply.result.value.Some? ==> (r <==> reply.result.value.value.idToken.Some?)
  {
    reply.result.Some? && reply.result.value.Some? && reply.result.value.value.idToken.Some?
  }

  /** The credential built from a Google user with an ID token. */
  function GoogleCredentialFor(reply: GidReply): (r: OAuthCredential)
    requires HasGoogleToken(reply)
    ensures r.GoogleCredential?
    ensures Some(r.googleIdToken) == reply.result.value.value.idToken
    ensures r.accessToken == reply.result.value.value.accessToken
  {
    var user := reply.result.value.value;
    GoogleCredential(user.idToken.value, user.accessToken)
  }

  /** `startGoogleSignIn(from:completion:)` after the configuration step:
      `configured` is what the step returned, `app` the Firebase app after it,
      `gid` Google's answer for a client ID and `signIn` Firebase's answer to
      a credential. */
  function StartGoogleSignIn(
    configured: Outcome,
    app: Option<FirebaseOptions>,
    gid: string -> GidReply,
    signIn: OAuthCredential -> AuthReply): (r: Attempt<SimplifiedAuthUser>)
    ensures configured.Fail? ==> r == Attempt(Failure(configured.error), [])
    ensures configured.Pass? && (app.None? || app.value.clientID.None?) ==> r == Attempt(Failure(MissingClientID), [])
    ensures configured.Pass? && app.Some? && app.value.clientID.Some? ==>
      var clientID := app.value.clientID.value;
      var google := gid(clientID);
      && 0 < |r.calls| && r.calls[0] == GidSignIn(clientID)
      && (google.error.Some? ==> r == Attempt(Failure(google.error.value), [GidSignIn(clientID)]))
      && (google.error.None? && !HasGoogleToken(google) ==> r == Attempt(Failure(NoGoogleUser), [GidSignIn(clientID)]))
      && (google.error.None? && HasGoogleToken(google) ==>
            var reply := signIn(GoogleCredentialFor(google));
            && r.calls == [GidSignIn(clientID), FirebaseSignIn(GoogleCredentialFor(google))]
            && (reply.error.Some? ==> r.result == Failure(reply.error.value))
            && (reply.error.None? && reply.authResult.None? ==> r.result == Failure(NoFirebaseResult))
            && (reply.error.None? && reply.authResult.Some? ==> r.result == Success(UserFrom(reply.authResult.value.user))))
  {
    if configured.Fail? then Attempt(Failure(configured.error), [])
    else if app.None? || app.value.clientID.None? then Attempt(Failure(MissingClientID), [])
    else
      var clientID := app.value.clientID.value;
      var google := gid(clientID);
      if google.error.Some? then Attempt(Failure(google.error.value), [GidSignIn(clientID)])
      else if !HasGoogleToken(google) then Attempt(Failure(NoGoogleUser), [GidSignIn(clientID)])
      else
        var credential := GoogleCredentialFor(google);
        var reply := signIn(credential);
        var calls := [GidSignIn(clientID), FirebaseSignIn(credential)];
        if reply.error.Some? then Attempt(Failure(reply.error.value), calls)
        else if reply.authResult.None? then Attempt(Failure(NoFirebaseResult), calls)
        else Attempt(Success(UserFrom(reply.authResult.value.user)), calls)
  }

  /** The flow succeeds exactly when every step answered: a configured app
      with a client ID, a Google user with a token, and a Firebase result
      without an error. Success is the projection of the Firebase user. */
  lemma GoogleSuccessIff(
    configured: Outcome,
    app: Option<FirebaseOptions>,
    gid: string -> GidReply,
    signIn: OAuthCredential -> AuthReply)
    ensures StartGoogleSignIn(configured, app, gid, signIn).result.Success? <==>
      && configured.Pass? && app.Some? && app.value.clientID.Some?
      && var google := gid(app.value.clientID.value);
      && google.error.None? && HasGoogleToken(google)
      && signIn(GoogleCredentialFor(google)).error.None?
      && signIn(GoogleCredentialFor(google)).authResult.Some?
  {
  }

  /** Firebase is asked only with the credential of the Google user, and
      only after Google answered for the app's client ID. */
  lemma GoogleFirebaseAfterGoogle(
    configured: Outcome,
    app: Option<FirebaseOptions>,
    gid: string -> GidReply,
    signIn: OAuthCredential -> AuthReply,
    k: nat)
    requires k < |StartGoogleSignIn(configured, app, gid, signIn).calls|
    requires StartGoogleSignIn(configured, app, gid, signIn).calls[k].FirebaseSignIn?
    ensures k == 1 && app.Some? && app.value.clientID.Some?
    ensures StartGoogleSignIn(configured, app, gid, signIn).calls[0] == GidSignIn(app.value.clientID.value)
    ensures HasGoogleToken(gid(app.value.clientID.value))
    ensures StartGoogleSignIn(configured, app, gid, signIn).calls[k].credential
         == GoogleCredentialFor(gid(app.value.clientID.value))
  {
  }

  /** A Firebase refusal reaches the Google caller as Firebase produced it,
      whereas the Apple handlers wrap it in a code 4 error of their own. */
  lemma GoogleRelaysBackendErrorUnwrapped(
    configured: Outcome,
    app: Option<FirebaseOptions>,
    gid: string -> GidReply,
    signIn: OAuthCredential -> AuthReply)
    requires configured.Pass? && app.Some? && app.value.clientID.Some?
    requires var google := gid(app.value.clientID.value);
      google.error.None? && HasGoogleToken(google) && signIn(GoogleCredentialFor(google)).error.Some?
    ensures var e := signIn(GoogleCredentialFor(gid(app.value.clientID.value))).error.value;
      && StartGoogleSignIn(configured, app, gid, signIn).result == Failure(e)
      && AppleAuthorization.FirebaseFailed(e) != e
  {
    var e := signIn(GoogleCredentialFor(gid(app.value.clientID.value))).error.value;
    var wrapped := AppleAuthorization.FirebaseFailed(e);
    assert wrapped.underlying == Some(e);
    assert e < wrapped;
  }

  /** `signInWithGoogle(from:completion:)`: the URL-scheme pre-check, then
      the configuration step on the shared Firebase app, then the flow. */
  method SignInWithGoogle(
    urlTypes: Option<seq<UrlTypeEntry>>,
    firebase: FirebaseApp,
    plist: Option<FirebaseOptions>,
    gid: string -> GidReply,
    signIn: OAuthCredential -> AuthReply) returns (attempt: Attempt<SimplifiedAuthUser>)
    modifies firebase
    ensures !HasGoogleURLScheme(urlTypes) ==>
      attempt == Attempt(Failure(MissingUrlScheme), []) && firebase.options == old(firebase.options)
    ensures HasGoogleURLScheme(urlTypes) ==>
      var (app, configured) := ConfigStep(old(firebase.options), plist);
      firebase.options == app && attempt == StartGoogleSignIn(configured, app, gid, signIn)
  {
    if !HasGoogleURLScheme(urlTypes) {
      return Attempt(Failure(MissingUrlScheme), []);
    }
    var configured := EnsureFirebaseConfigured(firebase, plist);
    attempt := StartGoogleSignIn(configured, firebase.options, gid, signIn);
  }
}
