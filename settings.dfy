/**
 * The typed settings snapshot (internal/config/app.go, run.go, version.go, the
 * fields of global.go) and the constants of internal/config/const.go.
 */
module Settings {
  import opened Base
  import opened Logging

  const DefaultConfigFolder: string := ".json-exec"
  const DefaultConfigName: string := "json-exec"
  const DefaultLogLevel: Level := Info
  const DefaultLogLevelFieldName: string := "@level"
  const DefaultLogMessageFieldName: string := "@message"
  const DefaultLogTimestampFieldName: string := "@timestamp"
  const EnvPrefix: string := "JSON_EXEC"

  /**
   * The `global` section. `extraFields` is `None` for a nil map, which is not
   * the same as an empty one.
   */
  datatype GlobalSettings = GlobalSettings(
    extraFields: Option<map<string, string>>,
    levelFieldName: string,
    logLevel: Level,
    logLevelRaw: string,
    messageFieldName: string,
    timestampFieldName: string
  )

  datatype RunConfig = RunConfig(ignoreStderr: bool, ignoreStdout: bool)

  datatype VersionConfig = VersionConfig(plaintext: bool, verbose: bool)

  datatype AppConfig = AppConfig(global: GlobalSettings, run: RunConfig, version: VersionConfig)

  /** Go's zero values: the `&AppConfig{}` installed before any file is read (the zero level is Debug). */
  const ZeroConfig: AppConfig :=
    AppConfig(GlobalSettings(None, "", Debug, "", "", ""), RunConfig(false, false), VersionConfig(false, false))
}
