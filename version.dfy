/**
 * internal/cli/commands/version/command.go: the `version` subcommand, which
 * reports the program's identity either as plain text or as one log record.
 */
module VersionCommand {
  import opened Logging
  import App
  import Text
  import ExitCodes
  import Config
  import Root

  const UnreleasedDate: string := "Unreleased"
  const DevBuildSuffix: string := " [developer build]"

  /** The text before any verbose detail: title and version. */
  function PlainVersion(info: App.BuildInfo): string {
    info.title + " version " + info.version
  }

  /** The release part of the verbose text. */
  function ReleasePart(releaseDate: string): string {
    if releaseDate == UnreleasedDate then " (Unreleased)" else " (Released " + releaseDate + ")"
  }

  /** The text the command reports. */
  function VersionString(info: App.BuildInfo, verbose: bool): (s: string)
    ensures !verbose ==> s == info.title + " version " + info.version
    ensures |PlainVersion(info)| <= |s| && s[..|PlainVersion(info)|] == PlainVersion(info)
  {
    if !verbose then PlainVersion(info)
    else
      PlainVersion(info) + " build " + info.build + ReleasePart(info.releaseDate)
      + (if info.isDevBuild then DevBuildSuffix else "")
  }

  /**
   * The logger the record is written through. In verbose mode it is rebuilt
   * from the global logger, so the version field added first is gone.
   */
  function VersionLogger(global: Logger, info: App.BuildInfo, verbose: bool): (l: Logger)
    ensures l.level == global.level && |l.context| == |global.context| + (if verbose then 3 else 1)
  {
    if !verbose then With(global, [Field("version", Str(info.version))])
    else With(global, [Field("build", Str(info.build)), Field("release_date", Str(info.releaseDate)),
                       Field("developer_build", Str(info.isDevelopment))])
  }

  /** The verbose text starts with the plain one followed by the build. */
  lemma VerboseExtendsPlain(info: App.BuildInfo)
    ensures var v := VersionString(info, true);
      var head := VersionString(info, false) + " build " + info.build;
      |head| < |v| && v[..|head|] == head
  {
    var head := VersionString(info, false) + " build " + info.build;
    var v := VersionString(info, true);
    assert v == head + (ReleasePart(info.releaseDate) + (if info.isDevBuild then DevBuildSuffix else ""));
  }

  /**
   * The verbose text after the build says "(Unreleased)" exactly when the
   * release date is that word, and otherwise shows the date as "(Released <date>)".
   */
  lemma UnreleasedExactly(info: App.BuildInfo)
    ensures var v := VersionString(info, true);
      var head := VersionString(info, false) + " build " + info.build;
      var unreleased := " (Unreleased)";
      |head| < |v| &&
      ((|head + unreleased| <= |v| && v[|head|..|head + unreleased|] == unreleased) <==> info.releaseDate == UnreleasedDate)
    ensures var v := VersionString(info, true);
      var head := VersionString(info, false) + " build " + info.build;
      var released := " (Released " + info.releaseDate + ")";
      info.releaseDate != UnreleasedDate ==> |head + released| <= |v| && v[|head|..|head + released|] == released
  {
    var head := VersionString(info, false) + " build " + info.build;
    var tail := ReleasePart(info.releaseDate) + (if info.isDevBuild then DevBuildSuffix else "");
    var v := VersionString(info, true);
    assert v == head + tail;
    var unreleased := " (Unreleased)";
    if |head + unreleased| <= |v| {
      assert v[|head|..|head + unreleased|] == tail[..|unreleased|];
      if info.releaseDate != UnreleasedDate {
        assert tail[2] == 'R';
        assert unreleased[2] == 'U';
      }
    }
    if info.releaseDate != UnreleasedDate {
      var released := " (Released " + info.releaseDate + ")";
      assert v == head + released + (if info.isDevBuild then DevBuildSuffix else "");
    }
  }

  /** The text ends in " [developer build]" exactly when the build is a developer build. */
  lemma DevSuffixExactly(info: App.BuildInfo)
    ensures Text.HasSuffix(VersionString(info, true), DevBuildSuffix) <==> info.isDevBuild
  {
    var v := VersionString(info, true);
    if !info.isDevBuild {
      var rest := PlainVersion(info) + " build " + info.build;
      var part := ReleasePart(info.releaseDate);
      assert v == rest + part;
      assert v[|v| - 1] == part[|part| - 1] == ')';
      assert DevBuildSuffix[|DevBuildSuffix| - 1] == ']';
    }
  }

  /** Only the verbose logger lacks the version field; it carries the build details instead. */
  lemma VerboseLoggerDropsVersion(global: Logger, info: App.BuildInfo, verbose: bool)
    ensures var l := VersionLogger(global, info, verbose);
      && l.level == global.level
      && l.context[..|global.context|] == global.context
      && (Field("version", Str(info.version)) in l.context[|global.context|..] <==> !verbose)
      && (verbose ==> Keys(l.context[|global.context|..]) == ["build", "release_date", "developer_build"])
  {
    var l := VersionLogger(global, info, verbose);
    if verbose {
      var added := l.context[|global.context|..];
      assert Keys(added) == [added[0].key, added[1].key, added[2].key];
    }
  }

  class Command {
    /** The root command whose exit code `version` sets. */
    const main: Root.RootCommand

    constructor (main: Root.RootCommand)
      ensures this.main == main
    {
      this.main := main;
    }

    /**
     * `Command.run`: prints the text with a newline in plain-text mode and
     * otherwise submits it as one Info record; either way the exit code is 0.
     */
    method Run(store: Config.ConfigStore, sink: Sink, info: App.BuildInfo)
      modifies main`exitCode, sink`records, sink`printed
      ensures var cfg := store.snapshot.version;
        if cfg.plaintext then
          sink.printed == old(sink.printed) + [VersionString(info, cfg.verbose) + "\n"]
          && sink.records == old(sink.records)
        else
          sink.records == old(sink.records) + [Record(Info, VersionLogger(sink.global, info, cfg.verbose).context,
                                                      VersionString(info, cfg.verbose))]
          && sink.printed == old(sink.printed)
      ensures main.exitCode == ExitCodes.None
    {
      var cfg := store.snapshot.version;

      var logger := With(sink.global, [Field("version", Str(info.version))]);
      var output := info.title + " version " + info.version;

      if cfg.verbose {
        logger := With(sink.global, [Field("build", Str(info.build)), Field("release_date", Str(info.releaseDate)),
                                     Field("developer_build", Str(info.isDevelopment))]);
        output := output + " build " + info.build;
        if info.releaseDate == UnreleasedDate {
          output := output + " (Unreleased)";
        } else {
          output := output + " (Released " + info.releaseDate + ")";
        }
        if info.isDevBuild {
          output := output + DevBuildSuffix;
        }
      }
      assert output == VersionString(info, cfg.verbose);

      if cfg.plaintext {
        sink.Print(output + "\n");
      } else {
        sink.Emit(logger, Info, output);
      }

      main.SetExitCode(ExitCodes.None);
    }
  }
}
