/**
 * internal/cli/commands/run/command.go: the `run` subcommand. It starts the
 * child process, logs one record before and one after it, and hands the
 * child's exit code to the root command.
 */
module RunCommand {
  import opened Logging
  import opened Settings
  import Text
  import ExitCodes
  import Config
  import Root

  /** What `command.Run()` reports: success, an `*exec.ExitError`, or any other error. */
  datatype ChildResult =
    | Completed
    | Exited(code: int, text: string)
    | LaunchFailed(text: string)

  /** The `exitCode` and `errorMessage` locals once the child has finished. */
  datatype Classified = Classified(exitCode: int, errorMessage: string)

  /**
   * The child's exit code passes through unchanged, a failed launch gives 99,
   * and a clean run reports code 0 with no error message.
   */
  function Classify(child: ChildResult): (c: Classified)
    ensures child.Completed? ==> c.exitCode == ExitCodes.None && c.errorMessage == ""
    ensures child.Exited? ==> c.exitCode == child.code && c.errorMessage == child.text
    ensures child.LaunchFailed? ==> c.exitCode == ExitCodes.LaunchFailure && c.errorMessage == child.text
  {
    match child
    case Completed => Classified(ExitCodes.None, "")
    case Exited(code, text) => Classified(code, text)
    case LaunchFailed(text) => Classified(ExitCodes.LaunchFailure, text)
  }

  /** The global logger while the command runs: the previous one plus the command and its arguments. */
  function RunLogger(global: Logger, args: seq<string>): Logger
    requires |args| >= 1
  {
    With(global, [Field("command", Str(args[0])), Field("args", Strs(args[1..]))])
  }

  const StartPrefix: string := "executing command: "
  const FailurePrefix: string := "command exited with non-zero exit code "
  const SuccessMessage: string := "command completed successfully"

  function StartMessage(args: seq<string>): string {
    StartPrefix + Text.Join(args, " ")
  }

  /**
   * The one field the outcome logger adds. Each `log.With()` starts again
   * from the global logger, so the last assignment that runs is the only one
   * that counts: stderr, else stdout, else the error message, else the code.
   */
  function OutcomeField(cfg: RunConfig, c: Classified, stdout: string, stderr: string): (f: Field)
    ensures f.key in {"stderr", "stdout", "error_message", "exit_code"}
    ensures f.key == "stderr" <==> !cfg.ignoreStderr
    ensures f.key == "stdout" ==> !cfg.ignoreStdout
    ensures f.key == "exit_code" ==> c.errorMessage == "" && f.value == Int(c.exitCode)
  {
    if !cfg.ignoreStderr then Field("stderr", Str(stderr))
    else if !cfg.ignoreStdout then Field("stdout", Str(stdout))
    else if c.errorMessage != "" then Field("error_message", Str(c.errorMessage))
    else Field("exit_code", Int(c.exitCode))
  }

  /** The record written once the child has finished. */
  function OutcomeRecord(logger: Logger, exitCode: int): Record {
    if exitCode != ExitCodes.None then Record(Warn, logger.context, FailurePrefix + Text.Itoa(exitCode))
    else Record(Info, logger.context, SuccessMessage)
  }

  /** The two records `run` submits, starting from the global logger `global`. */
  function RunRecords(global: Logger, cfg: RunConfig, args: seq<string>, child: ChildResult,
                      stdout: string, stderr: string): (rs: seq<Record>)
    requires |args| >= 1
    ensures |rs| == 2 && rs[0].level == Info && rs[0].message == StartMessage(args)
    ensures rs[1].level in {Info, Warn} && |rs[1].context| == |rs[0].context| + 1
  {
    var g := RunLogger(global, args);
    var c := Classify(child);
    [Record(Info, g.context, StartMessage(args)),
     OutcomeRecord(With(g, [OutcomeField(cfg, c, stdout, stderr)]), c.exitCode)]
  }

  /**
   * The first record is at Info, names the command and its arguments, and
   * its message starts with the command.
   */
  lemma StartRecordNamesCommand(global: Logger, cfg: RunConfig, args: seq<string>, child: ChildResult,
                                stdout: string, stderr: string)
    requires |args| >= 1
    ensures var r := RunRecords(global, cfg, args, child, stdout, stderr)[0];
      && r.level == Info
      && r.context == global.context + [Field("command", Str(args[0])), Field("args", Strs(args[1..]))]
      && |StartPrefix + args[0]| <= |r.message|
      && r.message[..|StartPrefix + args[0]|] == StartPrefix + args[0]
  {
    var m := StartMessage(args);
    var j := Text.Join(args, " ");
    assert m[..|StartPrefix + args[0]|] == StartPrefix + j[..|args[0]|];
  }

  /** A single argument is echoed as it is; each further one follows a single space. */
  lemma StartMessageJoinsWithSpaces(args: seq<string>, last: string)
    requires |args| >= 1
    ensures StartMessage([args[0]]) == StartPrefix + args[0]
    ensures StartMessage(args + [last]) == StartMessage(args) + " " + last
  {
    Text.JoinSnoc(args, " ", last);
    assert Text.Join([args[0]], " ") == args[0];
  }

  /**
   * The outcome record is a warning exactly when the exit code is not zero,
   * and the code can be read back from the warning's text.
   */
  lemma OutcomeLevelFollowsCode(global: Logger, cfg: RunConfig, args: seq<string>, child: ChildResult,
                                stdout: string, stderr: string)
    requires |args| >= 1
    ensures var r := RunRecords(global, cfg, args, child, stdout, stderr)[1];
      var code := Classify(child).exitCode;
      && (r.level == Warn <==> code != ExitCodes.None)
      && (r.level == Info <==> code == ExitCodes.None)
      && (code == ExitCodes.None ==> r.message == SuccessMessage)
      && (code != ExitCodes.None ==>
            && |FailurePrefix| < |r.message|
            && r.message[..|FailurePrefix|] == FailurePrefix
            && var digits := r.message[|FailurePrefix|..];
               (forall i :: 1 <= i < |digits| ==> '0' <= digits[i] <= '9')
               && (digits[0] != '-' ==> '0' <= digits[0] <= '9')
               && Text.IntValue(digits) == code)
  {
    var code := Classify(child).exitCode;
    if code != ExitCodes.None {
      var r := RunRecords(global, cfg, args, child, stdout, stderr)[1];
      assert r.message == FailurePrefix + Text.Itoa(code);
      assert r.message[|FailurePrefix|..] == Text.Itoa(code);
      Text.ItoaRoundTrip(code);
    }
  }

  /**
   * The outcome record carries the running logger's fields plus exactly one
   * more, chosen in the order stderr, stdout, error message, exit code.
   */
  lemma OutcomeCarriesOneField(global: Logger, cfg: RunConfig, args: seq<string>, child: ChildResult,
                               stdout: string, stderr: string)
    requires |args| >= 1
    ensures var rs := RunRecords(global, cfg, args, child, stdout, stderr);
      var c := Classify(child);
      && |rs[1].context| == |rs[0].context| + 1
      && rs[1].context[..|rs[0].context|] == rs[0].context
      && var f := rs[1].context[|rs[0].context|];
         && (f == Field("stderr", Str(stderr)) <==> !cfg.ignoreStderr)
         && (f == Field("stdout", Str(stdout)) <==> cfg.ignoreStderr && !cfg.ignoreStdout)
         && (f == Field("error_message", Str(c.errorMessage)) <==>
               cfg.ignoreStderr && cfg.ignoreStdout && c.errorMessage != "")
         && (f == Field("exit_code", Int(c.exitCode)) <==>
               cfg.ignoreStderr && cfg.ignoreStdout && c.errorMessage == "")
  {
  }

  /** With output captured, a failing child's record names neither its exit code nor its error. */
  lemma CapturedOutputHidesFailure(global: Logger, args: seq<string>, stdout: string, stderr: string)
    requires |args| >= 1
    ensures var rs := RunRecords(global, RunConfig(false, false), args, Exited(3, "exit status 3"), stdout, stderr);
      && rs[1].level == Warn
      && rs[1].context == rs[0].context + [Field("stderr", Str(stderr))]
  {
  }

  class Command {
    /** The root command whose exit code `run` sets. */
    const main: Root.RootCommand

    constructor (main: Root.RootCommand)
      ensures this.main == main
    {
      this.main := main;
    }

    /**
     * `Command.run`: `child` is what running `args` reports and `stdout` and
     * `stderr` what it writes to each stream. The global logger is restored
     * on the way out, and the root's exit code is the classified one.
     */
    method Run(store: Config.ConfigStore, sink: Sink, args: seq<string>, child: ChildResult,
               stdout: string, stderr: string)
      requires |args| >= 1
      modifies main`exitCode, sink`global, sink`records
      ensures sink.global == old(sink.global)
      ensures sink.records == old(sink.records) + RunRecords(old(sink.global), store.snapshot.run, args, child, stdout, stderr)
      ensures main.exitCode == Classify(child).exitCode
    {
      var restore := sink.ReplaceGlobal(
        With(sink.global, [Field("command", Str(args[0])), Field("args", Strs(args[1..]))]));
      var cfg := store.snapshot.run;

      var errorMessage := "";
      var exitCode := ExitCodes.None;
      sink.Emit(sink.global, Info, StartMessage(args));
      match child {
        case Completed =>
        case Exited(code, text) =>
          exitCode := code;
          errorMessage := text;
        case LaunchFailed(text) =>
          exitCode := ExitCodes.LaunchFailure;
          errorMessage := text;
      }

      var logger := With(sink.global, [Field("exit_code", Int(exitCode))]);
      if errorMessage != "" {
        logger := With(sink.global, [Field("error_message", Str(errorMessage))]);
      }
      if !cfg.ignoreStdout {
        logger := With(sink.global, [Field("stdout", Str(stdout))]);
      }
      if !cfg.ignoreStderr {
        logger := With(sink.global, [Field("stderr", Str(stderr))]);
      }

      if exitCode != ExitCodes.None {
        sink.Emit(logger, Warn, FailurePrefix + Text.Itoa(exitCode));
      } else {
        sink.Emit(logger, Info, SuccessMessage);
      }
      main.SetExitCode(exitCode);
      var _ := sink.ReplaceGlobal(restore);
    }
  }
}
