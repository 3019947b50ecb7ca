/** The process exit codes of internal/errors/const.go. */
module ExitCodes {

  const None: int := 0
  const Usage: int := 1
  const GeneralFailure: int := 2

  const ConfigLoadFailure: int := 40
  /** Declared but never assigned anywhere in the program. */
  const ConfigParseFailure: int := 41

  /** The exit code `run` reports when the child process could not be started at all. */
  const LaunchFailure: int := 99
}
