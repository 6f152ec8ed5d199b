/** The part of the logging shim the gate's behaviour depends on: whether
    debug logging is enabled at a given log level. */
module Logging {

  const LevelTrace := 50
  const LevelDebug := 100
  const LevelInfo := 200
  const LevelWarning := 300
  const LevelError := 400

  /** The log level a process starts with. */
  const DefaultLogLevel := LevelDebug

  function ShouldLogDebug(logLevel: int): bool
  {
    logLevel <= LevelDebug
  }

  /** Debug logging is on by default and off at every higher level. */
  lemma DebugLoggingOnByDefault()
    ensures ShouldLogDebug(DefaultLogLevel)
    ensures !ShouldLogDebug(LevelInfo) && !ShouldLogDebug(LevelWarning) && !ShouldLogDebug(LevelError)
  {
  }
}
