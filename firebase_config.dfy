/** `ensureFirebaseConfigured()`: the default Firebase app is configured at
    most once, from the options read out of GoogleService-Info.plist. */
module FirebaseConfig {
  import opened AuthTypes

  /** The options of a Firebase app; only the client ID is consulted. */
  datatype FirebaseOptions = FirebaseOptions(clientID: Option<string>)

  /** The error thrown when the plist cannot be found or parsed (code 1). */
  const PlistMissing: AuthError := KitError(1, "GoogleService-Info.plist is missing.")

  /** The process-wide default Firebase app: `FirebaseApp.app()`, which is
      nil until `FirebaseApp.configure(options:)` has run. */
  class FirebaseApp {
    var options: Option<FirebaseOptions>

    constructor()
      ensures options == None
    {
      options := None;
    }

    /** `FirebaseApp.configure(options:)`. */
    method Configure(opts: FirebaseOptions)
      modifies this
      ensures options == Some(opts)
    {
      options := Some(opts);
    }
  }

  /** One call of the helper as a transition: the app before the call and
      the parsed plist (None when the file is absent or unreadable) give the
      app after the call and whether the call threw. */
  function ConfigStep(app: Option<FirebaseOptions>, plist: Option<FirebaseOptions>): (r: (Option<FirebaseOptions>, Outcome))
    ensures app.Some? ==> r == (app, Pass)
    ensures app.None? && plist.Some? ==> r == (plist, Pass)
    ensures app.None? && plist.None? ==> r == (None, Fail(PlistMissing))
    ensures r.1.Pass? <==> r.0.Some?
  {
    if app.Some? then (app, Pass)
    else if plist.Some? then (plist, Pass)
    else (None, Fail(PlistMissing))
  }

  /** Calling the helper again changes nothing and cannot fail, whatever the
      plist holds by then. */
  lemma ConfigStepIdempotent(app: Option<FirebaseOptions>, plist: Option<FirebaseOptions>, later: Option<FirebaseOptions>)
    requires ConfigStep(app, plist).1.Pass?
    ensures ConfigStep(ConfigStep(app, plist).0, later) == (ConfigStep(app, plist).0, Pass)
  {
  }

  /** The helper never unconfigures the app, and a failure leaves it as it
      was. */
  lemma ConfigStepMonotone(app: Option<FirebaseOptions>, plist: Option<FirebaseOptions>)
    ensures app.Some? ==> ConfigStep(app, plist).0 == app
    ensures ConfigStep(app, plist).1.Fail? ==> ConfigStep(app, plist).0 == app
  {
  }

  /** `ensureFirebaseConfigured()` (SimplifiedAuthKit.swift). The provider
      classes call `GlobalAuthentification().ensureFirebaseConfigured()`,
      whose body is not part of this model; it is taken to behave like this
      helper. */
  method EnsureFirebaseConfigured(firebase: FirebaseApp, plist: Option<FirebaseOptions>) returns (r: Outcome)
    modifies firebase
    ensures (firebase.options, r) == ConfigStep(old(firebase.options), plist)
  {
    r := Pass;
    if firebase.options == None {
      if plist.Some? {
        firebase.Configure(plist.value);
      } else {
        r := Fail(PlistMissing);
      }
    }
  }
}
