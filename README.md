# json-exec, modelled in Dafny

json-exec is a command-line wrapper. It runs a system command and reports it as two structured log
records: one before the command runs, and one after it with its result. This project models the decision
logic and the state updates of its core:

- **Loading settings** (`Config`):
  - choosing the configuration file from the `--config-file` argument, the `JSON_EXEC_CONFIG_FILE`
    variable, or a default search of the working directory and `~/.json-exec`;
  - the not-found policy;
  - replacing the settings snapshot only after a successful decode;
  - the loop that watches the file and reloads it.
- **The `global` settings section** (`Global`): the log level, including the case-insensitive `none`;
  the output field names and their defaults; and the extra fields added to the global logger.
- **The root command** (`Root`):
  - the exit-code lifecycle (Usage, then None, then GeneralFailure, ConfigLoadFailure or the
    subcommand's code);
  - exporting the `JSON_EXEC_*` identity variables;
  - the map of flags given on the command line.
- **The `run` subcommand** (`RunCommand`): classifying the child's outcome, and the two records it
  writes.
- **The `version` subcommand** (`VersionCommand`): the version text, and the choice between
  printing it and logging it.
- **The adapter for Go's standard `log` package** (`GoLog`).

Helper modules:

- `Base`: Option and Result.
- `Text`: the few `strings`/`strconv` functions used.
- `Logging`: the logging library as values. It has loggers with context fields and a `Sink` object that
  holds the global logger, the three output field names, the submitted records and the printed text.
- `Settings`: the typed settings and their constants.
- `ExitCodes` and `App`: the exit-code constants and the identity strings.

Anything outside the program becomes an input:

- **Operating system:** the environment, absolute-path resolution, the working and home directories,
  symlink targets, and `os.Setenv` failures.
- **Libraries:** the configuration library's file read, the YAML decode, and the level parser.
- **The child process:** its result.
- **Go map iteration:** its order is a sequence that lists every key once.

State the program updates in place is a class with `modifies` clauses:

- the package's settings snapshot (`Config.ConfigStore`);
- the `global` receiver (`Global.GlobalConfig`);
- the root command's exit code (`Root.RootCommand`);
- the logging library's global state (`Logging.Sink`).

Each method is proved against a pure function. The lemmas about those functions state what the
program promises.

The model follows the code as written, including these behaviours:

- **The not-found message names no file.** The path variable is shadowed inside the `if`, so the
  message always shows an empty string (`Config.NotFoundMessageNamesNoFile`).
- **The receiver is overwritten first.** It is replaced before the log level is checked, so a bad
  level leaves it changed (`Global.BadLevelAbortsAfterOverwrite`).
- **`log.With()` restarts from the global logger.** Each call drops the fields added before it:
  - only one extra field survives (`Global.ExtraFieldsDropAllButOne`);
  - the `run` outcome record carries exactly one result field (`RunCommand.OutcomeCarriesOneField`,
    `RunCommand.CapturedOutputHidesFailure`);
  - the verbose `version` record has no version field (`VersionCommand.VerboseLoggerDropsVersion`).
- **The program never assigns `ConfigParseFailure`.** The set-up step never ends with exit code 41
  (`Root.PreRunExitCodes`). A child process that exits with 41 still passes that code through `run`.
- **The stop test on a removed file runs only when no reload fired.** It is an `else if`, and it masks
  the op with Remove twice (`Config.Classify`, `Config.RemoveLosesToReload`).

## Model

| member | source | states |
|---|---|---|
| Config.Resolve | internal/config/config.go:34-64 | a resolved source is the default search exactly when `usingDefaultConfig` is set, and the default search looks for base name json-exec |
| Config.ArgumentWins | internal/config/config.go:39-44 | with a non-empty argument, only the resolution of that argument to an absolute path (variable expansion included) decides: JSON_EXEC_CONFIG_FILE and the two directories do not matter, and the source is the resolved path, or the resolution error |
| Config.EnvironmentWinsWithoutArgument | internal/config/config.go:45-50 | with no argument, a non-empty JSON_EXEC_CONFIG_FILE decides alone and becomes the named file |
| Config.DefaultOnlyWhenNothingNamed | internal/config/config.go:51-64 | the default search (working directory, then `<home>/.json-exec`) is used exactly when neither the argument nor the variable names a file and both directories are known |
| Config.NotFoundPolicy | internal/config/config.go:67-75 | a not-found read is an error exactly when a file was named explicitly; any other read failure is always an error |
| Config.NotFoundMessageNamesNoFile | internal/config/config.go:36-70 | because of the shadowed variable, the not-found error reads `failed to load config file '': file not found` whatever path was requested |
| Config.ReadError | internal/config/config.go:67-75 | a successful read is no error; a not-found read is an error only for an explicitly named file, and its message shows an empty path; any other failure is an error naming the file used and the library's error |
| Config.Decode | internal/config/config.go:92-101 | decoding succeeds exactly when both the marshal and the unmarshal succeed, gives the unmarshalled settings, and otherwise reports the first failing step's error under the fixed prefix |
| Config.LoadSpec | internal/config/config.go:34-83 | `Load` stops at the first failing step: a resolution error, then a read error; once resolution and the read succeed its result is exactly the decode's, whose settings are the only successful result |
| Config.MissingDefaultFileIsNoError | internal/config/config.go:51-82 | when nothing is named and the default search finds nothing, `Load` returns exactly what `Unmarshal` returns |
| Config.MissingNamedFileFails | internal/config/config.go:67-71 | a file named explicitly that is not found makes `Load` fail, whatever would have been decoded |
| Config.LoadSucceedsOnlyByDecoding | internal/config/config.go:66-82 | a successful `Load` gives exactly the settings `Unmarshal` decodes |
| Config.ConfigStore.constructor | internal/config/init.go:32 | the package starts with the zero-valued settings snapshot and no file source |
| Config.ConfigStore.Unmarshal | internal/config/config.go:86-108 | the snapshot is assigned only after both steps succeed; on either error it is unchanged and the error is returned |
| Config.ConfigStore.ReloadConfig | internal/config/config.go:111-128 | a failed `Unmarshal` during a reload is swallowed, and the previous snapshot stays |
| Config.ConfigStore.Load | internal/config/config.go:34-83 | the snapshot and the returned error are those of the load specification; the file source is recorded whenever resolution succeeds |
| Config.Classify | internal/config/config.go:166-187 | an event reloads exactly when its cleaned name is the config file with a Write or Create bit, or the symlink target is non-empty and has changed; it stops exactly when it does not reload, names the config file and has the Remove bit |
| Config.RemoveLosesToReload | internal/config/config.go:167-184 | an event that both writes and removes the config file reloads and does not end the loop |
| Config.Handle | internal/config/config.go:157-197 | a reload sets `realConfigFile` to the current target even when the re-read fails, and replaces the snapshot only after a good re-read and decode; a closed event channel or any error delivery ends the loop; other events change nothing |
| Config.Watch | internal/config/config.go:155-199 | the loop handles at most the deliveries given; it handles all of them unless one ends it, and it ends only on a handled delivery |
| Config.WatchProvenance | internal/config/config.go:166-182 | the final snapshot is the initial one or the decode of a handled good reload; the final `realConfigFile` is the initial one or a target seen with a handled event |
| Config.NoGoodReloadKeepsSnapshot | internal/config/config.go:171-181 | without a successful re-read and decode, the snapshot survives the loop unchanged |
| Config.WatchIgnoresAfterStop | internal/config/config.go:183-197 | once the loop has returned, later deliveries are never looked at |
| Config.WatchStopsAtFirstStop | internal/config/config.go:157-197 | the loop ends exactly at the first delivery on which one turn says stop: every earlier handled delivery goes on, and the last handled one of a returned loop stops |
| Config.WatchEndsByClose | internal/config/config.go:157-197 | a closed events channel or a receive on the errors channel ends the loop at that delivery at the latest |
| Config.WatchEndsByRemove | internal/config/config.go:183-187 | a Remove event on the config file that does not reload, in the state the loop has reached, ends the loop at that delivery at the latest |
| Config.WatchLoop | internal/config/config.go:155-199 | the imperative loop ends with the `realConfigFile`, snapshot, count and stop flag of the loop specification |
| Global.IsNoneAnyCase | internal/config/global.go:47 | a level value is `none` exactly when it has four letters spelling n-o-n-e in any mix of upper and lower case |
| Global.NameOrDefault | internal/config/global.go:59-73 | a blank configured field name gives the default, and any other name is kept |
| Global.ExtraFieldsLoop | internal/config/global.go:76-80 | the loop over the extra fields rebuilds each turn from the global logger, and keeps the global logger's level |
| Global.ExtraFieldsKeepOnlyLast | internal/config/global.go:76-81 | after the loop over the extra fields, the logger is the global logger plus only the field visited last |
| Global.ExtraFieldsDropAllButOne | internal/config/global.go:78-80 | with two or more extra fields, the new global logger carries exactly one of them, the last visited, and not the first |
| Global.ApplyOutput | internal/config/global.go:58-82 | after the level step no output field name is blank, each configured name is kept, the global logger keeps its level, and a nil extra-field map leaves it alone |
| Global.DecodeGlobal | internal/config/global.go:38-84 | a failed inner decode returns its error and changes neither the receiver nor the logging state; otherwise the receiver becomes the decoded value, except perhaps its level |
| Global.NoneDisablesOutput | internal/config/global.go:47-48 | `none` in any case disables the logger, never consults the level parser, leaves the decoded level as it was, and returns no error |
| Global.ParsedLevelApplied | internal/config/global.go:50-55 | a parsed level becomes both the receiver's level and the global logger's level |
| Global.BadLevelAbortsAfterOverwrite | internal/config/global.go:44-53 | a level the parser rejects returns an error naming the raw value after the receiver was already overwritten, and leaves the logging state untouched |
| Global.FieldNamesNeverBlank | internal/config/global.go:58-73 | after a successful call, each output field name is the configured name, or `@level`/`@message`/`@timestamp` when blank, and none is blank |
| Global.ExtraFieldsOnlyFromMap | internal/config/global.go:75-83 | the global logger gains context only from a non-nil extra-field map, and then exactly the field visited last |
| Global.GlobalConfig.constructor | internal/config/global.go:13-31 | the receiver holds the given settings |
| Global.GlobalConfig.UnmarshalYAML | internal/config/global.go:38-84 | the receiver, the global logger, the three field names and the returned error are those of `DecodeGlobal` |
| Global.GlobalConfig.SetFieldNames | internal/config/global.go:58-73 | each library field name becomes the configured name or its default |
| Global.GlobalConfig.AddExtraFields | internal/config/global.go:75-82 | the map loop leaves the global logger the extra-field specification gives, and leaves it alone for a nil map |
| GoLog.Message | internal/config/log.go:15 | the message is the written text with at most one final character dropped, and a dropped character is a newline |
| GoLog.Write | internal/config/log.go:14-20 | `Write` returns the length of its input and no error, and submits one Info record with a `log_message` field and the prefixed message, both holding the trimmed text |
| GoLog.MessageDropsFinalNewline | internal/config/log.go:15 | input that ends in a newline loses exactly that newline |
| GoLog.MessageKeepsOtherText | internal/config/log.go:15 | input that does not end in a newline is kept whole |
| GoLog.OnlyOneNewlineTrimmed | internal/config/log.go:15 | only one newline goes: "a\n\n" becomes "a\n" |
| Root.ChangedNames | internal/cli/rootCommand.go:94-103 | a name is collected exactly when some flag with that name was changed |
| Root.ExportedVars | internal/cli/rootCommand.go:123-131 | exactly the seven keys BUILD, COMMAND_NAME, IS_DEVELOPMENT, RELEASE_DATE, VERSION, GOOS and GOARCH are exported, with the build identity, `true`/`false` for a developer build, and the platform |
| Root.VariableNameInjective | internal/cli/rootCommand.go:133 | distinct keys are exported under distinct `JSON_EXEC_` names |
| Root.Export | internal/cli/rootCommand.go:132-137 | an export failure names a visited key whose variable failed |
| Root.ExportStopsAtFirstFailure | internal/cli/rootCommand.go:132-137 | without a failure, every key is exported as `JSON_EXEC_<key>` with its value and every other variable keeps its value; with a failure, the reported key is the first failing one in visiting order |
| Root.ExportKeeps | internal/cli/rootCommand.go:132-137 | a variable that no later key is exported under with another value keeps its value through the loop |
| Root.SetEnvironment | internal/cli/rootCommand.go:122-137 | the imperative export loop leaves the environment and stops at the key given by the export specification |
| Root.PreRun | internal/cli/rootCommand.go:118-150 | the environment is whatever the export loop leaves; an export failure returns the message naming its key and error; otherwise the error is exactly `Load`'s |
| Root.PreRunExitCodes | internal/cli/rootCommand.go:118-150 | set-up ends with 0 exactly when it returns no error, with 2 exactly when an export failed, otherwise with 40, and never with 41 |
| Root.ConfigFileOnlyWhenGiven | internal/cli/rootCommand.go:140-145 | the bound `--config-file` value matters only when the flag was given on the command line |
| Root.RootCommand.constructor | internal/cli/rootCommand.go:39 | a new root command starts with the usage exit code 1 |
| Root.RootCommand.GetExitCode | internal/cli/rootCommand.go:107-110 | returns the current exit code and changes nothing |
| Root.RootCommand.SetExitCode | internal/cli/rootCommand.go:112-115 | the exit code becomes the given one |
| Root.RootCommand.GetCommandLineFlags | internal/cli/rootCommand.go:92-105 | the map holds exactly the changed persistent and local flags, each mapped to true |
| Root.RootCommand.LoadSettings | internal/cli/rootCommand.go:139-149 | `Load` gets the bound file only when `config-file` was given; the error, the snapshot and the recorded source are those of `Load`, and a failure sets exit code 40 |
| Root.RootCommand.PersistentPreRunE | internal/cli/rootCommand.go:117-150 | the exit code, the returned error, the environment and the settings snapshot are those of the set-up specification; `Load` gets the bound file only when `config-file` was given; the recorded file source is the one `Load` resolves once the export succeeded, and is otherwise unchanged |
| RunCommand.Classify | internal/cli/commands/run/command.go:82-93 | a clean run gives 0 with no message, an exit error passes its code and text through, and any other launch error gives 99 with its text |
| RunCommand.OutcomeField | internal/cli/commands/run/command.go:96-113 | the added field is one of stderr, stdout, error_message and exit_code; it is stderr exactly when stderr is not ignored, stdout only when stdout is not ignored, and the exit code only when there is no error message |
| RunCommand.RunRecords | internal/cli/commands/run/command.go:60-119 | `run` submits exactly two records: the Info start record with the joined arguments, then an Info or Warn outcome record with one field more |
| RunCommand.StartRecordNamesCommand | internal/cli/commands/run/command.go:60-84 | the first record is at Info, carries the command and its arguments on top of the previous global logger, and its message starts with `executing command: ` and the command |
| RunCommand.StartMessageJoinsWithSpaces | internal/cli/commands/run/command.go:84 | the start message shows the arguments joined by single spaces |
| RunCommand.OutcomeLevelFollowsCode | internal/cli/commands/run/command.go:115-119 | the outcome record is a Warn exactly when the exit code is non-zero, and the code can be read back from its message; otherwise it is Info with the success message |
| RunCommand.OutcomeCarriesOneField | internal/cli/commands/run/command.go:96-113 | the outcome record adds exactly one field: stderr if it is not ignored, else stdout if it is not ignored, else a non-empty error message, else the exit code |
| RunCommand.CapturedOutputHidesFailure | internal/cli/commands/run/command.go:96-113 | with output captured, a child exiting with code 3 gives a warning whose only result field is stderr, with no exit code and no error message |
| RunCommand.Command.constructor | internal/cli/commands/run/command.go:25-41 | the command keeps its root command |
| RunCommand.Command.Run | internal/cli/commands/run/command.go:59-121 | `run` submits exactly the two records of its specification, restores the global logger, and leaves the root's exit code equal to the classified code |
| VersionCommand.VersionString | internal/cli/commands/version/command.go:60-78 | the text is `<Title> version <Version>` when not verbose, and always starts with it |
| VersionCommand.VersionLogger | internal/cli/commands/version/command.go:57-67 | the record's logger keeps the global level and adds one field, or three in verbose mode |
| VersionCommand.VerboseExtendsPlain | internal/cli/commands/version/command.go:60-69 | the verbose text starts with `<Title> version <Version>` followed by ` build <Build>` |
| VersionCommand.UnreleasedExactly | internal/cli/commands/version/command.go:70-74 | the verbose text continues with ` (Unreleased)` exactly when the release date is that exact word, and with ` (Released <date>)` for any other date |
| VersionCommand.DevSuffixExactly | internal/cli/commands/version/command.go:75-77 | the verbose text ends with ` [developer build]` exactly when the build is a developer build |
| VersionCommand.VerboseLoggerDropsVersion | internal/cli/commands/version/command.go:57-67 | the record's logger has the version field exactly when not verbose; the verbose one carries build, release_date and developer_build instead |
| VersionCommand.Command.constructor | internal/cli/commands/version/command.go:22-36 | the command keeps its root command |
| VersionCommand.Command.Run | internal/cli/commands/version/command.go:54-87 | in plain-text mode the text and a newline are printed and nothing is logged; otherwise one Info record with the text is submitted and nothing is printed; the exit code is 0 either way |
| Logging.With | internal/config/global.go:79 | a child logger keeps its parent's level and context and appends the new fields after them |
| Logging.Sink.ReplaceGlobal | internal/cli/commands/run/command.go:60-66 | the new global logger is installed, and the previous one is handed back for restoring |
| Text.JoinSnoc | internal/cli/commands/run/command.go:84 | joining one more part appends the separator and that part |
| Text.ItoaRoundTrip | internal/cli/commands/run/command.go:116 | the decimal text of an exit code reads back as the same code |

## Left out

- fsnotify, the goroutines, the wait groups and the per-call mutex of the watcher are concurrency. The
  event loop is modelled sequentially over a finite sequence of deliveries. Creating the watcher, its
  failure with `log.Fatal`, and the directory split are not modelled.
- `Config.ConfigStore.Load` does not start the watcher before `Unmarshal`. The watcher is modelled on
  its own (`Config.WatchLoop`), and its concurrent effect on the snapshot is not composed with `Load`.
- The operating-system and library calls are inputs, not models. These are `filepath.Abs` with
  `os.ExpandEnv`, `os.Getwd`, `user.Current`, `filepath.EvalSymlinks`, `filepath.Clean`, `os.Setenv`,
  the configuration library's `ReadInConfig` and `ConfigFileUsed`, the YAML marshal and unmarshal, and
  the logging library's `ParseLevel`.
- Which error kind the configuration library gives for a missing explicit file is its own behaviour.
  The read outcome is an input, so the not-found branch is modelled for whichever source reports it.
- The configuration library's merging of flags, environment and file, and its key replacer, are
  library configuration and are not part of this model. So is how the decoded `global` section reaches
  `Global.GlobalConfig.UnmarshalYAML`: the settings decode and the `global` decode are modelled
  separately.
- The logging library is modelled as values only. Level filtering, JSON output, timestamps and the
  per-level writers are not modelled. Every record the program submits is kept, whatever its level.
  The program imports two versions of the library; the model treats them as one global logger.
  `internal/config/global.go` and the `run` command use version 1, while `internal/config/log.go`,
  `internal/config/config.go`, the `version` command and `main.go` use version 2. So in the program the
  level, field names and extra fields that `UnmarshalYAML` sets never reach the `version` record or the
  `log` adapter's record, although in the model they do.
- The Debug record `Unmarshal` writes after a successful decode, and the Error and Warn records of a
  failed reload, are not modelled. They are log output only.
- Config.JoinPath joins a directory and one element with a single separator. It does not do the
  path cleaning of `filepath.Join`: `..`, `.` and doubled separators inside the directory are kept.
- The child process, its byte buffers and `exec.Command` are inputs: the result (success, an exit
  error with code and text, or another error) and the text written to each stream. A stream that is
  ignored is never captured. The model shows this by never building a field for it; it does not model
  the nil writer.
- Cobra wiring, flag registration, help text, the `NewCommand` panics on a nil root (Dafny references
  are never null), `cmd/json-exec/main.go` and `internal/config/init.go` are process setup and are not
  part of this model.
- `app.Title` is defined outside the files modelled here. It is carried as a field of `App.BuildInfo`.
- Root.ExportedVars gives the seven identity variables. `runtime.GOOS` and `runtime.GOARCH` are
  parameters.
- Integers are unbounded. Exit codes and lengths never come near Go's `int` limits in this program.
