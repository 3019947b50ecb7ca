/**
 * The link-time identity strings of internal/app/vars.go, passed around as one
 * value. `Title` is used by the version command but defined outside the files
 * of this model, so it is carried here as one more field.
 */
module App {

  datatype BuildInfo = BuildInfo(
    title: string,
    build: string,
    commandName: string,
    isDevBuild: bool,
    isDevelopment: string,
    releaseDate: string,
    version: string
  )
}
