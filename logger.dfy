/** `SimplifiedAuthKitLogger` (SimplifiedAuthKitLogger.swift): a console
    logger with one process-wide verbosity level. */
module Logger {

  /** `SimplifiedAuthKitLogLevel`, from the quietest to the most verbose. */
  datatype LogLevel = None | Error | Warning | Info

  /** The enum's `rawValue`: the cases numbered from zero in order. */
  function RawValue(level: LogLevel): (r: int)
    ensures 0 <= r <= 3
  {
    match level
    case None => 0
    case Error => 1
    case Warning => 2
    case Info => 3
  }

  /** The raw values number the levels without gaps or repeats, in the
      order declared. */
  lemma RawValueOrder(a: LogLevel, b: LogLevel)
    ensures RawValue(None) < RawValue(Error) < RawValue(Warning) < RawValue(Info)
    ensures RawValue(a) == RawValue(b) <==> a == b
  {
  }

  const Prefix: string := "[SimplifiedAuthKit] "

  /** The guard of `log`: a message passes when its level is at most as
      verbose as the configured one. */
  function ShouldEmit(messageLevel: LogLevel, configured: LogLevel): (r: bool)
    ensures messageLevel == configured ==> r
    ensures messageLevel == Info ==> (r <==> configured == Info)
    ensures configured == None ==> (r <==> messageLevel == None)
  {
    RawValue(messageLevel) <= RawValue(configured)
  }

  /** With `.none` configured no error, warning or information message is
      emitted; with `.info` every message is. */
  lemma FilterExtremes(messageLevel: LogLevel)
    ensures messageLevel != None ==> !ShouldEmit(messageLevel, None)
    ensures ShouldEmit(messageLevel, Info)
  {
  }

  /** Raising the configured level never hides a message that was shown. */
  lemma FilterMonotone(messageLevel: LogLevel, configured: LogLevel, raised: LogLevel)
    requires RawValue(configured) <= RawValue(raised)
    ensures ShouldEmit(messageLevel, configured) ==> ShouldEmit(messageLevel, raised)
  {
  }

  /** A message tagged `.none` has the lowest raw value and therefore passes
      the guard at every configured level, `.none` included. */
  lemma NoneMessagePassesEveryLevel(configured: LogLevel)
    ensures ShouldEmit(None, configured)
  {
  }

  /** The logger's state: `level`, the static verbosity, and `output`, the
      lines printed so far. */
  class SimplifiedAuthKitLogger {
    var level: LogLevel
    var output: seq<string>

    constructor()
      ensures level == Info && output == []
    {
      level := Info;
      output := [];
    }

    /** `log(_:level:)`: prints the prefixed message when it passes the guard
        and leaves the configured level alone. */
    method Log(message: string, messageLevel: LogLevel)
      modifies this`output
      ensures ShouldEmit(messageLevel, level) ==> output == old(output) + [Prefix + message]
      ensures !ShouldEmit(messageLevel, level) ==> output == old(output)
    {
      if !(RawValue(messageLevel) <= RawValue(level)) {
        return;
      }
      output := output + [Prefix + message];
    }
  }
}
