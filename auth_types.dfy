/** Values shared by every part of SimplifiedAuthKit: the optional and result
    wrappers of Swift, the NSError values the library builds or relays, the
    user record it hands back (SimplifiedAuthUser.swift), the button style
    enums (AuthButtonStyle.swift) and the Firebase values both providers
    receive from the backend SDK. */
module AuthTypes {

  /** Swift's `UInt8`. */
  type UInt8 = x: int | 0 <= x < 256

  /** Swift's `Optional`. */
  datatype Option<+T> = None | Some(value: T)

  /** An `NSError` as delivered to a completion handler: the library's own
      errors carry the domain "SimplifiedAuthKit"; errors produced by the
      vendor SDKs are opaque values of the same shape. */
  datatype AuthError = AuthError(domain: string, code: int, description: string, underlying: Option<AuthError>)

  /** Swift's `Result<T, Error>`, the argument of every completion handler. */
  datatype Result<+T> = Success(value: T) | Failure(error: AuthError)

  /** The outcome of a call that `throws` and otherwise returns nothing. */
  datatype Outcome = Pass | Fail(error: AuthError)

  const KitDomain: string := "SimplifiedAuthKit"

  /** An error the library creates itself, without an underlying error. */
  function KitError(code: int, description: string): AuthError
  {
    AuthError(KitDomain, code, description, None)
  }

  /** The record returned after a successful sign-in. */
  datatype SimplifiedAuthUser = SimplifiedAuthUser(
    uid: Option<string>,
    email: Option<string>,
    displayName: Option<string>,
    photoURL: Option<string>)

  datatype ButtonColor = Black | White

  datatype AuthButtonStyle =
    | Apple(color: ButtonColor, appleAdaptive: bool)
    | Google(color: ButtonColor, googleAdaptive: bool)

  /** The Firebase user inside an `AuthDataResult`; its uid is never nil. */
  datatype FirebaseUser = FirebaseUser(
    uid: string,
    email: Option<string>,
    displayName: Option<string>,
    photoURL: Option<string>)

  datatype AuthDataResult = AuthDataResult(user: FirebaseUser)

  /** The credential handed to `Auth.auth().signIn(with:)`. */
  datatype OAuthCredential =
    | AppleCredential(idToken: string, rawNonce: string, fullName: Option<string>)
    | GoogleCredential(googleIdToken: string, accessToken: string)

  /** The `(authResult, error)` pair a Firebase sign-in callback receives.
      Both halves are optionals, so every combination is possible. */
  datatype AuthReply = AuthReply(authResult: Option<AuthDataResult>, error: Option<AuthError>)

  /** The projection of a Firebase user both providers deliver on success. */
  function UserFrom(user: FirebaseUser): (r: SimplifiedAuthUser)
    ensures r.uid == Some(user.uid)
    ensures r.email == user.email && r.displayName == user.displayName && r.photoURL == user.photoURL
  {
    SimplifiedAuthUser(Some(user.uid), user.email, user.displayName, user.photoURL)
  }

  /** A call into a vendor SDK that waits for an answer: the Google sign-in
      sheet for a client ID, or a Firebase sign-in with a credential. */
  datatype SdkCall = GidSignIn(clientID: string) | FirebaseSignIn(credential: OAuthCredential)

  /** What one sign-in attempt does: the value it hands its completion
      handler, exactly once, and the SDK calls it made on the way, in order. */
  datatype Attempt<+T> = Attempt(result: Result<T>, calls: seq<SdkCall>)
}
