# SimplifiedAuthKit in Dafny

SimplifiedAuthKit is a Swift facade over Sign in with Apple, Google Sign-In
and Firebase Auth. Most of it is glue around the vendor SDKs. This project
models the parts that decide something:

- the rejection-sampling nonce generator and the hex rendering of its
  SHA-256 hash;
- the guard chains that turn the SDK callbacks into one `Result` with the
  library's error codes (1 to 8 and 10);
- the configure-once Firebase helper;
- the URL-scheme pre-check of the Google flow;
- the logger's level filter;
- the colour rule and the restyle rule of the two sign-in buttons.

The SDKs are not modelled. Each one is an input:

- Firebase's answer to a credential is a function `OAuthCredential -> AuthReply`.
- Google's answer for a client ID is a function `string -> GidReply`.
- The UTF-8 decoding of the Apple identity token is a function `seq<UInt8> -> Option<string>`.
- SHA-256 is a function from the nonce to 32 bytes.
- The random bytes are a supplied byte sequence.
- The parsed GoogleService-Info.plist is an `Option<FirebaseOptions>`.
- Firebase's default app, `FirebaseApp.app()`, is an object of class `FirebaseApp`. `Configure` sets its options, and each method that configures Firebase is given it and may modify it.

The handler functions and `SignInWithGoogle` return an `Attempt`. It holds
the one value handed to the completion handler and the SDK calls made on the
way, in order. So "completion is called exactly once" and "the backend is
never contacted after an early failure" are statements about that record.
`SignInWithApple`, `StartAppleSignInOnFreshKit` and both `StartAppleSignIn`
methods return the Apple ID request instead. They record completion values
in the class's `delivered` log, and so do the delegate methods. Every Apple
sign-in runs on a fresh provider or kit, so one object's log belongs to one
sign-in.

Modules follow the source files:

- `Nonce`, `Digest`: the two helpers present in both AppleAuthProvider.swift
  and SimplifiedAuthKit.swift.
- `FirebaseConfig`: `ensureFirebaseConfigured`.
- `AppleAuthorization`: the Apple values and the first two guards both Apple
  handlers share.
- `AppleAuthProvider`, `SimplifiedAuthKit`: the provider's Apple entry point
  and the kit's own Apple handler, which the public `makeAppleButton` and
  button extension reach. Their classes keep the stored nonce, the retained delegate
  and a log `delivered` of completion values.
- `GoogleProvider`.
- `Logger`.
- `ButtonStyle`, `AppleSignInButton`, `GoogleSignInButton`: the buttons. Their
  classes have the fields `applyStyle` writes.

## Notes on the code

- The nonce alphabet literal skips the letter `W` and has 64 symbols, so
  every byte below 64 is kept.
- On the Google path a Firebase error is relayed unwrapped. Only the Apple
  handlers wrap it as code 4.
- The kit's own Apple handler (SimplifiedAuthKit.swift) reports success
  whenever Firebase returns no error, even when it returns no result.

## Model

| member | source | states |
|---|---|---|
| `Nonce.CharsetAt` | Sources/SimplifiedAuthKit/AppleAuthProvider.swift:75 | the alphabet has 64 characters, and `charset[b]` is the b-th character of the runs `0-9`, `A-V`, `X-Z`, `a-z`, `-._` |
| `Nonce.CharsetIndexInverse` | Sources/SimplifiedAuthKit/AppleAuthProvider.swift:75 | every alphabet character is found back at its own position; only alphabet characters are found at all; no position holds `W` |
| `Nonce.CharsetShape` | Sources/SimplifiedAuthKit/AppleAuthProvider.swift:75 | the alphabet has 64 pairwise distinct characters and does not contain `W` |
| `Nonce.Accepted` | Sources/SimplifiedAuthKit/AppleAuthProvider.swift:93 | never more kept bytes than drawn (which bytes are kept, in which order, is fixed by `AcceptedSingle` and `AcceptedAppend`) |
| `Nonce.AcceptedSingle` | Sources/SimplifiedAuthKit/AppleAuthProvider.swift:93 | a byte is kept if and only if it is below the alphabet size 64 |
| `Nonce.AcceptedAppend` | Sources/SimplifiedAuthKit/AppleAuthProvider.swift:79-97 | what is kept from a stream is what is kept from each part, in draw order |
| `Nonce.AcceptedAllSmall` | Sources/SimplifiedAuthKit/AppleAuthProvider.swift:93-96 | a stream of bytes all below 64 is kept whole |
| `Nonce.Encode` | Sources/SimplifiedAuthKit/AppleAuthProvider.swift:94 | one character per kept byte |
| `Nonce.EncodeAt` | Sources/SimplifiedAuthKit/AppleAuthProvider.swift:94 | the i-th character is `charset[i-th kept byte]` |
| `Nonce.DecodeEncode` | Sources/SimplifiedAuthKit/AppleAuthProvider.swift:94 | the kept bytes can be read back from the nonce, so distinct kept bytes give distinct nonces |
| `Nonce.NonceFrom` | Sources/SimplifiedAuthKit/AppleAuthProvider.swift:73-100 | the nonce of a source is exactly `length` characters long |
| `Nonce.NonceSymbols` | Sources/SimplifiedAuthKit/SimplifiedAuthKit.swift:143-146 | every nonce character belongs to the alphabet, and the i-th is the character the i-th kept byte indexes (same for the copy in AppleAuthProvider.swift) |
| `Nonce.NonceIgnoresLaterBytes` | Sources/SimplifiedAuthKit/AppleAuthProvider.swift:89-92 | bytes scanned after the nonce is complete change nothing |
| `Nonce.PartialIsPrefixOfNonce` | Sources/SimplifiedAuthKit/AppleAuthProvider.swift:89-97 | scanning byte by byte yields the characters of the first `min(length, kept)` kept bytes |
| `Nonce.PartialComplete` | Sources/SimplifiedAuthKit/AppleAuthProvider.swift:79-99 | once `length` bytes have been kept, the scan has produced the whole nonce |
| `Nonce.RandomNonceString` | Sources/SimplifiedAuthKit/AppleAuthProvider.swift:73-100 | for `length > 0` the result is the symbols of the first `length` kept bytes in draw order. It is exactly `length` long, every character is in the alphabet, and it is drawn in whole 16-byte batches, no batch more than needed |
| `Digest.HexByte` | Sources/SimplifiedAuthKit/AppleAuthProvider.swift:69 | `%02x` gives two lower-case hex digits whose value is the byte |
| `Digest.Hex` | Sources/SimplifiedAuthKit/AppleAuthProvider.swift:68-70 | an n-byte digest renders as 2n lower-case hex characters |
| `Digest.HexAt` | Sources/SimplifiedAuthKit/AppleAuthProvider.swift:68-70 | byte i is rendered at positions 2i and 2i+1, high nibble first |
| `Digest.ParseHexInverse` | Sources/SimplifiedAuthKit/SimplifiedAuthKit.swift:116-118 | the digest can be read back from its rendering |
| `Digest.Sha256` | Sources/SimplifiedAuthKit/AppleAuthProvider.swift:65-71 | the rendered hash is 64 lower-case hex characters and parses back to the digest of the input |
| `FirebaseConfig.ConfigStep` | Sources/SimplifiedAuthKit/SimplifiedAuthKit.swift:34-53 | configured: no change, no error. Unconfigured with a parsed plist: configured with it. Unconfigured without one: code 1 and still unconfigured. The call succeeds iff the app ends configured |
| `FirebaseConfig.ConfigStepIdempotent` | Sources/SimplifiedAuthKit/SimplifiedAuthKit.swift:36 | after a successful call, a second call changes nothing and cannot fail, whatever the plist holds |
| `FirebaseConfig.ConfigStepMonotone` | Sources/SimplifiedAuthKit/SimplifiedAuthKit.swift:44-51 | a configured app stays as it is, and a failing call leaves the app unchanged |
| `FirebaseConfig.FirebaseApp.Configure` | Sources/SimplifiedAuthKit/SimplifiedAuthKit.swift:42 | the default app holds the given options |
| `FirebaseConfig.EnsureFirebaseConfigured` | Sources/SimplifiedAuthKit/SimplifiedAuthKit.swift:34-53 | the new app state and the outcome are those of `ConfigStep` |
| `AuthTypes.UserFrom` | Sources/SimplifiedAuthKit/AppleAuthProvider.swift:171-176 | the user record copies uid, email, display name and photo URL from the Firebase user (the same projection is at GoogleProvider.swift:160-165) |
| `AppleAuthorization.FirebaseFailed` | Sources/SimplifiedAuthKit/AppleAuthProvider.swift:151-158 | the code 4 error is a library error that carries the Firebase error as its underlying error, so it always differs from it, and quotes its description after "Firebase authentication failed: " (the same error is at SimplifiedAuthKit.swift:220-227) |
| `AppleAuthorization.IdTokenString` | Sources/SimplifiedAuthKit/AppleAuthProvider.swift:113-115 | a token string exists iff the credential is an Apple ID one with a token that decodes as UTF-8 |
| `AppleAuthorization.AppleCredentialFor` | Sources/SimplifiedAuthKit/AppleAuthProvider.swift:113-139 | code 3 iff there is no token string, checked before the nonce; code 2 iff there is a token but no nonce; otherwise the credential carries the token, the raw stored nonce and the full name |
| `AppleAuthProvider.HandleAppleAuthorization` | Sources/SimplifiedAuthKit/AppleAuthProvider.swift:111-183 | codes 3 and 2 as above with no SDK call. Otherwise exactly one Firebase call with that credential. Its error gives code 4 wrapping it; no error and no result gives code 5; success iff no error and a result, with uid, email, name and photo copied |
| `AppleAuthProvider.HandleAppleFailureCodes` | Sources/SimplifiedAuthKit/AppleAuthProvider.swift:116-170 | every failure is a library error with code 2 to 5, and only code 4 has an underlying error |
| `AppleAuthProvider.HandleAppleSendsStoredNonce` | Sources/SimplifiedAuthKit/AppleAuthProvider.swift:135-139 | the credential sent depends on the stored nonce: different nonces give different calls |
| `AppleAuthProvider.AppleProvider.constructor` | Sources/SimplifiedAuthKit/AppleAuthProvider.swift:16-23 | a new provider has no nonce, no delegate and has delivered nothing |
| `AppleAuthProvider.AppleProvider.StartAppleSignIn` | Sources/SimplifiedAuthKit/AppleAuthProvider.swift:33-63 | a configuration failure is delivered and nothing else changes: no nonce stored, no request. Otherwise the 32-character nonce is stored raw, the request carries scopes full name and email and its SHA-256 hex, and a fresh delegate pointing back at the provider is retained |
| `AppleAuthProvider.AppleProvider.HandleAuthorization` | Sources/SimplifiedAuthKit/AppleAuthProvider.swift:141-182 | exactly one value, the handler's result for the stored nonce, is delivered |
| `AppleAuthProvider.AppleSignInDelegate.constructor` | Sources/SimplifiedAuthKit/AppleAuthProvider.swift:190-193 | the delegate points at its provider |
| `AppleAuthProvider.AppleSignInDelegate.DidCompleteWithAuthorization` | Sources/SimplifiedAuthKit/AppleAuthProvider.swift:195-198 | the authorization is handled with the provider's stored nonce and one value is delivered |
| `AppleAuthProvider.AppleSignInDelegate.DidCompleteWithError` | Sources/SimplifiedAuthKit/AppleAuthProvider.swift:200-202 | the controller's error is delivered unmodified |
| `AppleAuthProvider.SignInWithApple` | Sources/SimplifiedAuthKit/AppleAuthProvider.swift:25-31 | a fresh provider per sign-in. It has delivered the configuration error, or it stores the nonce whose hash is the request's nonce |
| `SimplifiedAuthKit.HandleAppleAuthorization` | Sources/SimplifiedAuthKit/SimplifiedAuthKit.swift:187-249 | code 3 iff no token string, checked first; code 2 iff no nonce. Otherwise one Firebase call: its error gives code 4 wrapping it, and success (the authorization itself) iff there is no error |
| `SimplifiedAuthKit.HandlersAgreeExceptMissingResult` | Sources/SimplifiedAuthKit/SimplifiedAuthKit.swift:209-239 | both Apple handlers make the same calls and fail alike. They differ only when Firebase returns neither error nor result: code 5 in one, success in the other |
| `SimplifiedAuthKit.StartAppleSignInOnFreshKit` | Sources/SimplifiedAuthKit/SimplifiedAuthKit.swift:332-337 | the button tap action (lines 63-68) and the button extension each start a sign-in on a fresh kit. That kit has delivered the configuration error, or it stores the nonce whose hash is the request's nonce |
| `SimplifiedAuthKit.SimplifiedAuthKit.constructor` | Sources/SimplifiedAuthKit/SimplifiedAuthKit.swift:11-23 | a new kit has no nonce, no delegate and has delivered nothing |
| `SimplifiedAuthKit.SimplifiedAuthKit.StartAppleSignIn` | Sources/SimplifiedAuthKit/SimplifiedAuthKit.swift:251-285 | as for the provider: a configuration failure is delivered before any nonce is stored; otherwise the raw nonce is stored and the request carries its hash |
| `SimplifiedAuthKit.SimplifiedAuthKit.HandleAuthorization` | Sources/SimplifiedAuthKit/SimplifiedAuthKit.swift:187-249 | exactly one value, the handler's result for the stored nonce, is delivered |
| `SimplifiedAuthKit.AppleSignInDelegate.constructor` | Sources/SimplifiedAuthKit/SimplifiedAuthKit.swift:81-85 | the delegate points at its kit |
| `SimplifiedAuthKit.AppleSignInDelegate.DidCompleteWithAuthorization` | Sources/SimplifiedAuthKit/SimplifiedAuthKit.swift:87-93 | the authorization is handled with the kit's stored nonce and one value is delivered |
| `SimplifiedAuthKit.AppleSignInDelegate.DidCompleteWithError` | Sources/SimplifiedAuthKit/SimplifiedAuthKit.swift:95-97 | the controller's error is delivered unmodified |
| `GoogleProvider.AnyGoogleScheme` | Sources/SimplifiedAuthKit/GoogleProvider.swift:65 | true iff some scheme of the list contains `googleusercontent.apps` |
| `GoogleProvider.ScanUrlTypes` | Sources/SimplifiedAuthKit/GoogleProvider.swift:63-70 | the loop with early return is true iff some entry with a string list lists a Google scheme; entries without one are skipped |
| `GoogleProvider.HasGoogleURLScheme` | Sources/SimplifiedAuthKit/GoogleProvider.swift:58-71 | false when `CFBundleURLTypes` is absent; otherwise true iff some entry lists a scheme containing the marker |
| `GoogleProvider.HasGoogleToken` | Sources/SimplifiedAuthKit/GoogleProvider.swift:112-115 | the guard passes only when Google returned a result with a user; no result, or a result without a user, fails it; given a user, it passes iff that user has an ID token |
| `GoogleProvider.GoogleCredentialFor` | Sources/SimplifiedAuthKit/GoogleProvider.swift:126-129 | the Google credential carries the user's ID token and access token |
| `GoogleProvider.StartGoogleSignIn` | Sources/SimplifiedAuthKit/GoogleProvider.swift:82-173 | a configuration error comes first and is relayed; then code 6 for a missing client ID, with no SDK call. Then Google is asked for the client ID: its error is relayed, no user or token gives code 7. Then Firebase is asked with the Google credential: its error is relayed unwrapped, no result gives code 8, and success copies the user |
| `GoogleProvider.GoogleSuccessIff` | Sources/SimplifiedAuthKit/GoogleProvider.swift:106-170 | success iff configured with a client ID, Google answered with a user and token, and Firebase answered with a result and no error |
| `GoogleProvider.GoogleFirebaseAfterGoogle` | Sources/SimplifiedAuthKit/GoogleProvider.swift:104-131 | Firebase is asked only as the second call, after Google answered for the app's client ID with a token, and with that user's credential |
| `GoogleProvider.GoogleRelaysBackendErrorUnwrapped` | Sources/SimplifiedAuthKit/GoogleProvider.swift:132-147 | a Firebase error reaches the Google caller as it is, which differs from the code 4 wrapper of the Apple path |
| `GoogleProvider.SignInWithGoogle` | Sources/SimplifiedAuthKit/GoogleProvider.swift:13-47 | a failed pre-check gives code 10 with no SDK call and the Firebase app untouched. Otherwise the configuration step runs and then the flow |
| `Logger.RawValue` | Sources/SimplifiedAuthKit/SimplifiedAuthKitLogger.swift:10-15 | raw values lie between 0 and 3 |
| `Logger.RawValueOrder` | Sources/SimplifiedAuthKit/SimplifiedAuthKitLogger.swift:10-15 | none < error < warning < info, and distinct levels have distinct raw values |
| `Logger.ShouldEmit` | Sources/SimplifiedAuthKit/SimplifiedAuthKitLogger.swift:25 | a message at the configured level passes; an info message passes only at `.info`; at `.none` only a `.none` message passes |
| `Logger.FilterExtremes` | Sources/SimplifiedAuthKit/SimplifiedAuthKitLogger.swift:25 | `.none` configured suppresses every error, warning and info message; `.info` configured emits every message |
| `Logger.FilterMonotone` | Sources/SimplifiedAuthKit/SimplifiedAuthKitLogger.swift:25 | raising the configured level never hides a message that was emitted |
| `Logger.NoneMessagePassesEveryLevel` | Sources/SimplifiedAuthKit/SimplifiedAuthKitLogger.swift:11 | a message tagged `.none` passes the guard at every level |
| `Logger.SimplifiedAuthKitLogger.constructor` | Sources/SimplifiedAuthKit/SimplifiedAuthKitLogger.swift:21 | the level starts at `.info` and nothing has been printed |
| `Logger.SimplifiedAuthKitLogger.Log` | Sources/SimplifiedAuthKit/SimplifiedAuthKitLogger.swift:23-27 | a message passing the guard is printed once with the `[SimplifiedAuthKit] ` prefix, otherwise nothing is printed; the level never changes |
| `ButtonStyle.HasDifferentColorAppearance` | Sources/SimplifiedAuthKit/AppleSignInButton.swift:32 | identical traits never count as a change, and a change of interface style always does |
| `ButtonStyle.EffectiveColor` | Sources/SimplifiedAuthKit/AppleSignInButton.swift:39-42 | non-adaptive: the chosen colour in every style. Adaptive and dark: the other colour. Adaptive and not dark: the chosen colour |
| `ButtonStyle.EffectiveColorFlips` | Sources/SimplifiedAuthKit/GoogleSignInButton.swift:37-43 | an adaptive button's colour differs between two styles iff exactly one of them is dark, and swapping twice restores it |
| `ButtonStyle.Background` | Sources/SimplifiedAuthKit/AppleSignInButton.swift:44 | the background is black iff the effective colour is black |
| `ButtonStyle.Foreground` | Sources/SimplifiedAuthKit/AppleSignInButton.swift:45 | the foreground is white iff the effective colour is black, so it always differs from the background |
| `ButtonStyle.ShouldRestyle` | Sources/SimplifiedAuthKit/AppleSignInButton.swift:32 | a non-adaptive button never restyles, identical previous traits never cause a restyle, and an adaptive button restyles whenever the interface style changed (the same guard is at GoogleSignInButton.swift:31) |
| `ButtonStyle.SkippedRestyleKeepsColours` | Sources/SimplifiedAuthKit/AppleSignInButton.swift:30-35 | when the restyle guard fails, the colours for the new style equal those for the old one |
| `AppleSignInButton.AppleSignInButton.constructor` | Sources/SimplifiedAuthKit/AppleSignInButton.swift:15-21 | keeps the chosen colour and flag, and is styled for its initial traits |
| `AppleSignInButton.AppleSignInButton.FromCoder` | Sources/SimplifiedAuthKit/AppleSignInButton.swift:23-28 | black, not adaptive, and styled for its initial traits |
| `AppleSignInButton.AppleSignInButton.ApplyStyle` | Sources/SimplifiedAuthKit/AppleSignInButton.swift:38-67 | background, title colour, tint and logo tint follow the effective colour; the foreground colours the title and logo; title, corner radius and clipping are set |
| `AppleSignInButton.AppleSignInButton.TraitCollectionDidChange` | Sources/SimplifiedAuthKit/AppleSignInButton.swift:30-35 | restyles for the current style iff adaptive and the colour appearance changed; otherwise nothing changes |
| `AppleSignInButton.AppleSignInButton.ChangeTraits` | Sources/SimplifiedAuthKit/AppleSignInButton.swift:30-35 | after any trait change the button still shows the colours of its current appearance |
| `GoogleSignInButton.GoogleSignInButton.constructor` | Sources/SimplifiedAuthKit/GoogleSignInButton.swift:14-20 | keeps the chosen colour and flag, and is styled for its initial traits |
| `GoogleSignInButton.GoogleSignInButton.FromCoder` | Sources/SimplifiedAuthKit/GoogleSignInButton.swift:22-27 | black, not adaptive, and styled for its initial traits |
| `GoogleSignInButton.GoogleSignInButton.ApplyStyle` | Sources/SimplifiedAuthKit/GoogleSignInButton.swift:36-61 | the configuration's base background and foreground follow the effective colour, with the title, padding 8 and medium corners; content is centred and clipped |
| `GoogleSignInButton.GoogleSignInButton.TraitCollectionDidChange` | Sources/SimplifiedAuthKit/GoogleSignInButton.swift:29-34 | restyles for the current style iff adaptive and the colour appearance changed; otherwise nothing changes |
| `GoogleSignInButton.GoogleSignInButton.ChangeTraits` | Sources/SimplifiedAuthKit/GoogleSignInButton.swift:29-34 | after any trait change the button still shows the colours of its current appearance |

## Left out

- Nonce.RandomNonceString: the random source is a finite byte sequence of whole 16-byte batches that holds at least `length` kept bytes. The real source is unbounded, so the loop's termination needs this bound.
- The `fatalError` taken when `SecRandomCopyBytes` fails: the supplied bytes never fail.
- SHA-256 itself is a parameter returning 32 bytes. The UTF-8 view of the nonce it hashes is part of that parameter.
- The vendor SDKs themselves are not modelled. Only the answers of `Auth.auth().signIn` and `GIDSignIn` are function inputs, and those two calls are traced in `Attempt` as `FirebaseSignIn` and `GidSignIn`.
- `FirebaseApp.app()` is the `FirebaseApp` object that `FirebaseApp.Configure` sets. Configuring is a state change, and no `Attempt` records it.
- The Apple authorization controller is the Apple ID request that `StartAppleSignIn` returns. Its answer arrives as the argument of the delegate methods `DidCompleteWithAuthorization` and `DidCompleteWithError`.
- The credential constructors `OAuthProvider.appleCredential` and `GoogleAuthProvider.credential` are plain datatype values `AppleCredential` and `GoogleCredential`.
- Reading Info.plist and GoogleService-Info.plist, including `requiredGoogleScheme`, is file I/O. Their parsed contents are inputs.
- `GlobalAuthentification`, which the provider classes use to configure Firebase, is not part of this model. It is taken to behave like `ensureFirebaseConfigured` in SimplifiedAuthKit.swift.
- The logging and `print` calls along the sign-in flows are side output only.
- Threading (`@MainActor`, asynchronous callbacks) is not modelled. Each callback is a method call, in the order the SDK would make them.
- Weak references are not modelled. The delegate always reaches its provider, which leaves out the case where a released provider means the completion is never called.
- `objc_setAssociatedObject` retention is not modelled.
- `presentationAnchor` and the remembered presenting window and view controller are UI presentation.
- Fonts, the logo images, edge insets, content mode and the `UIButton` superclass are not modelled. The Google logo is not part of `ButtonConfiguration`; in the source it is set only when `UIImage(named:)` finds it.
- `hasDifferentColorAppearance(comparedTo:)` belongs to UIKit. Only the fact that interface style, contrast and interface level affect colour appearance is modelled, and a missing previous collection counts as a change.
- `AppleProvider.makeAppleButton`, `makeGoogleButton` and `styleAppleButton` only construct buttons.
- `SimplifiedAuthKit.makeAppleButton(from:completion:)` builds an `ASAuthorizationAppleIDButton`. The button itself is not modelled. The tap action it attaches when given a completion runs `startAppleSignIn` on a fresh kit, and that is `StartAppleSignInOnFreshKit`. The `ASAuthorizationAppleIDButton` extension does the same.
- The session helpers in Global Authentification.swift are thin wrappers over the SDKs.
- Messagws.swift and Package.swift hold constant strings and the build manifest.
- The commented-out code in SimplifiedAuthKit.swift is not modelled.
- The logger under `Sources/New Folder` is an unused variant of SimplifiedAuthKitLogger.swift.
- `String.contains` is compared character by character, without Unicode normalisation.
