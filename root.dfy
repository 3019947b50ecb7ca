/**
 * internal/cli/rootCommand.go: the root command's exit code, the map of flags
 * given on the command line, and the set-up that runs before every
 * subcommand (exporting identity variables, then loading the settings).
 */
module Root {
  import opened Base
  import App
  import Config
  import ExitCodes
  import Settings
  import Text

  /** A command-line flag as the flag library reports it: its name and whether it was given. */
  datatype Flag = Flag(name: string, changed: bool)

  /** The names of the flags that were given on the command line. */
  function ChangedNames(flags: seq<Flag>): (names: set<string>)
    ensures forall i :: 0 <= i < |flags| && flags[i].changed ==> flags[i].name in names
    ensures forall n :: n in names ==> exists i :: 0 <= i < |flags| && flags[i].changed && flags[i].name == n
  {
    if flags == [] then {}
    else
      var last := flags[|flags| - 1];
      ChangedNames(flags[..|flags| - 1]) + (if last.changed then {last.name} else {})
  }

  const ConfigFileFlag: string := "config-file"

  /** The argument `persistentPreRunE` hands to `Load`: the flag's value only when the flag was given. */
  function LoadArgument(visited: map<string, bool>, configFile: string): string {
    if ConfigFileFlag in visited then configFile else ""
  }

  /** The identity variables exported for child processes, by key before the prefix. */
  function ExportedVars(info: App.BuildInfo, goos: string, goarch: string): (vars: map<string, string>)
    ensures vars.Keys == {"BUILD", "COMMAND_NAME", "IS_DEVELOPMENT", "RELEASE_DATE", "VERSION", "GOOS", "GOARCH"}
    ensures vars["IS_DEVELOPMENT"] == (if info.isDevBuild then "true" else "false")
    ensures vars["BUILD"] == info.build && vars["VERSION"] == info.version && vars["RELEASE_DATE"] == info.releaseDate
    ensures vars["COMMAND_NAME"] == info.commandName && vars["GOOS"] == goos && vars["GOARCH"] == goarch
  {
    map[
      "BUILD" := info.build,
      "COMMAND_NAME" := info.commandName,
      "IS_DEVELOPMENT" := Text.FormatBool(info.isDevBuild),
      "RELEASE_DATE" := info.releaseDate,
      "VERSION" := info.version,
      "GOOS" := goos,
      "GOARCH" := goarch
    ]
  }

  /** The environment variable a key is exported under. */
  function VariableName(key: string): string {
    Settings.EnvPrefix + "_" + key
  }

  /** The environment after the export loop, and the key whose `os.Setenv` failed, if one did. */
  datatype ExportOutcome = ExportOutcome(env: map<string, string>, failed: Option<string>)

  /**
   * The export loop: `failures` maps each variable name whose `os.Setenv`
   * fails to the error's text; the loop stops at the first such key.
   */
  function Export(env: map<string, string>, vars: map<string, string>, order: seq<string>,
                  failures: map<string, string>): (r: ExportOutcome)
    requires forall i :: 0 <= i < |order| ==> order[i] in vars
    ensures r.failed.Some? ==> r.failed.value in order && VariableName(r.failed.value) in failures
    decreases |order|
  {
    if order == [] then ExportOutcome(env, None)
    else
      var key := order[0];
      if VariableName(key) in failures then ExportOutcome(env, Some(key))
      else Export(env[VariableName(key) := vars[key]], vars, order[1..], failures)
  }

  /** Distinct keys are exported under distinct names. */
  lemma VariableNameInjective(a: string, b: string)
    ensures VariableName(a) == VariableName(b) ==> a == b
  {
    var p := Settings.EnvPrefix + "_";
    assert VariableName(a)[|p|..] == a && VariableName(b)[|p|..] == b;
  }

  /** None of the first `k` keys of `order` fails to export. */
  predicate NoneFailBefore(order: seq<string>, k: nat, failures: map<string, string>)
    requires k <= |order|
  {
    forall i :: 0 <= i < k ==> VariableName(order[i]) !in failures
  }

  /**
   * Without a failure every key is exported under its prefixed name with its
   * value, and every other variable keeps its value; with a failure, it is
   * the first failing key in the visiting order.
   */
  lemma {:induction false} ExportStopsAtFirstFailure(env: map<string, string>, vars: map<string, string>,
                                                     order: seq<string>, failures: map<string, string>)
    requires forall i :: 0 <= i < |order| ==> order[i] in vars
    ensures var r := Export(env, vars, order, failures);
      r.failed.None? ==>
        && (forall i :: 0 <= i < |order| ==> VariableName(order[i]) !in failures)
        && (forall i :: 0 <= i < |order| ==>
              VariableName(order[i]) in r.env && r.env[VariableName(order[i])] == vars[order[i]])
        && (forall v :: v in env && (forall i :: 0 <= i < |order| ==> VariableName(order[i]) != v) ==>
              v in r.env && r.env[v] == env[v])
    ensures var r := Export(env, vars, order, failures);
      r.failed.Some? ==>
        exists k :: 0 <= k < |order| && order[k] == r.failed.value && NoneFailBefore(order, k, failures)
    decreases |order|
  {
    if order != [] {
      var key := order[0];
      if VariableName(key) !in failures {
        var env' := env[VariableName(key) := vars[key]];
        ExportStopsAtFirstFailure(env', vars, order[1..], failures);
        var r := Export(env', vars, order[1..], failures);
        if r.failed.None? {
          forall i | 0 <= i < |order|
            ensures VariableName(order[i]) in r.env && r.env[VariableName(order[i])] == vars[order[i]]
          {
            if i == 0 {
              forall j | 0 <= j < |order[1..]| && VariableName(order[1..][j]) == VariableName(key)
                ensures vars[order[1..][j]] == env'[VariableName(key)]
              {
                VariableNameInjective(order[1..][j], key);
              }
              ExportKeeps(env', vars, order[1..], failures, VariableName(key));
            } else {
              assert order[1..][i - 1] == order[i];
            }
          }
          forall v | v in env && (forall i :: 0 <= i < |order| ==> VariableName(order[i]) != v)
            ensures v in r.env && r.env[v] == env[v]
          {
            assert forall j :: 0 <= j < |order[1..]| ==> VariableName(order[1..][j]) == VariableName(order[j + 1]);
          }
        } else {
          var k :| 0 <= k < |order[1..]| && order[1..][k] == r.failed.value && NoneFailBefore(order[1..], k, failures);
          assert order[k + 1] == r.failed.value;
          forall i | 0 <= i < k + 1 ensures VariableName(order[i]) !in failures {
            if i > 0 { assert order[i] == order[1..][i - 1]; }
          }
        }
      }
    }
  }

  /** A variable no later key is exported under with a different value keeps its value through the loop. */
  lemma {:induction false} ExportKeeps(env: map<string, string>, vars: map<string, string>, order: seq<string>,
                                       failures: map<string, string>, v: string)
    requires forall i :: 0 <= i < |order| ==> order[i] in vars
    requires v in env
    requires forall i :: 0 <= i < |order| && VariableName(order[i]) == v ==> vars[order[i]] == env[v]
    ensures v in Export(env, vars, order, failures).env
    ensures Export(env, vars, order, failures).env[v] == env[v]
    decreases |order|
  {
    if order != [] && VariableName(order[0]) !in failures {
      var env' := env[VariableName(order[0]) := vars[order[0]]];
      assert forall i :: 0 <= i < |order[1..]| ==> order[1..][i] == order[i + 1];
      ExportKeeps(env', vars, order[1..], failures, v);
    }
  }

  /**
   * The export loop of `persistentPreRunE`, run over the process environment
   * `env0`: it returns the environment it leaves and the key it stopped at.
   */
  method SetEnvironment(env0: map<string, string>, vars: map<string, string>, order: seq<string>,
                        failures: map<string, string>) returns (env: map<string, string>, failed: Option<string>)
    requires forall i :: 0 <= i < |order| ==> order[i] in vars
    ensures ExportOutcome(env, failed) == Export(env0, vars, order, failures)
  {
    env := env0;
    var i := 0;
    while i < |order|
      invariant i <= |order|
      invariant Export(env0, vars, order, failures) == Export(env, vars, order[i..], failures)
    {
      assert order[i..][1..] == order[i + 1..];
      var key := order[i];
      var name := VariableName(key);
      if name in failures {
        return env, Some(key);
      }
      env := env[name := vars[key]];
      i := i + 1;
    }
    failed := None;
  }

  /** What `persistentPreRunE` leaves: the exit code, the error it returns and the process environment. */
  datatype PreRunOutcome = PreRunOutcome(exitCode: int, err: Option<string>, env: map<string, string>)

  /** `persistentPreRunE` as a function of its inputs. */
  function PreRun(configFile: string, host: Config.Host, vars: map<string, string>, order: seq<string>,
                  failures: map<string, string>, visited: map<string, bool>,
                  read: Config.Source -> Config.ReadResult, attempt: Config.DecodeAttempt): (r: PreRunOutcome)
    requires forall i :: 0 <= i < |order| ==> order[i] in vars
    ensures r.env == Export(host.env, vars, order, failures).env
    ensures Export(host.env, vars, order, failures).failed.Some? ==>
      r.err == Some("failed to set environment variable '" + Export(host.env, vars, order, failures).failed.value + "': "
                    + failures[VariableName(Export(host.env, vars, order, failures).failed.value)])
    ensures Export(host.env, vars, order, failures).failed.None? ==>
      var loaded := Config.LoadSpec(LoadArgument(visited, configFile), host.(env := r.env), read, attempt);
      r.err == (if loaded.Err? then Some(loaded.error) else None)
  {
    var exported := Export(host.env, vars, order, failures);
    match exported.failed
    case Some(key) =>
      PreRunOutcome(ExitCodes.GeneralFailure,
        Some("failed to set environment variable '" + key + "': " + failures[VariableName(key)]), exported.env)
    case None =>
      match Config.LoadSpec(LoadArgument(visited, configFile), host.(env := exported.env), read, attempt)
      case Err(e) => PreRunOutcome(ExitCodes.ConfigLoadFailure, Some(e), exported.env)
      case Ok(_) => PreRunOutcome(ExitCodes.None, None, exported.env)
  }

  /**
   * The set-up ends with exit code 0 exactly when it returns no error, and
   * otherwise with 2 (export) or 40 (load); the parse-failure code 41 never
   * appears.
   */
  lemma PreRunExitCodes(configFile: string, host: Config.Host, vars: map<string, string>, order: seq<string>,
                        failures: map<string, string>, visited: map<string, bool>,
                        read: Config.Source -> Config.ReadResult, attempt: Config.DecodeAttempt)
    requires forall i :: 0 <= i < |order| ==> order[i] in vars
    ensures var r := PreRun(configFile, host, vars, order, failures, visited, read, attempt);
      && r.exitCode in {ExitCodes.None, ExitCodes.GeneralFailure, ExitCodes.ConfigLoadFailure}
      && r.exitCode != ExitCodes.ConfigParseFailure
      && (r.exitCode == ExitCodes.None <==> r.err == None)
      && (r.exitCode == ExitCodes.GeneralFailure <==> Export(host.env, vars, order, failures).failed.Some?)
  {
  }

  /** The value of --config-file matters only when the flag was given on the command line. */
  lemma ConfigFileOnlyWhenGiven(configFile: string, other: string, host: Config.Host, vars: map<string, string>,
                                order: seq<string>, failures: map<string, string>, visited: map<string, bool>,
                                read: Config.Source -> Config.ReadResult, attempt: Config.DecodeAttempt)
    requires forall i :: 0 <= i < |order| ==> order[i] in vars
    requires ConfigFileFlag !in visited
    ensures PreRun(configFile, host, vars, order, failures, visited, read, attempt) ==
      PreRun(other, host, vars, order, failures, visited, read, attempt)
  {
  }

  /** The map `GetCommandLineFlags` builds: every changed flag's name, mapped to true. */
  function Visited(persistent: seq<Flag>, local: seq<Flag>): map<string, bool> {
    map n | n in ChangedNames(persistent) + ChangedNames(local) :: true
  }

  /** The root command's own state: the variable bound to --config-file and the exit code. */
  class RootCommand {
    var configFile: string
    var exitCode: int

    /** `NewRootCommand`: nothing parsed yet, so the exit code is the usage error. */
    constructor ()
      ensures configFile == "" && exitCode == ExitCodes.Usage
    {
      configFile := "";
      exitCode := ExitCodes.Usage;
    }

    method GetExitCode() returns (code: int)
      ensures code == exitCode
    {
      code := exitCode;
    }

    method SetExitCode(code: int)
      modifies this`exitCode
      ensures exitCode == code
    {
      exitCode := code;
    }

    /** `GetCommandLineFlags`: every flag given, persistent or local, maps to true; no other name is present. */
    method GetCommandLineFlags(persistent: seq<Flag>, local: seq<Flag>) returns (visited: map<string, bool>)
      ensures visited.Keys == ChangedNames(persistent) + ChangedNames(local)
      ensures forall n :: n in visited ==> visited[n]
    {
      visited := map[];
      var i := 0;
      while i < |persistent|
        invariant i <= |persistent|
        invariant visited.Keys == ChangedNames(persistent[..i])
        invariant forall n :: n in visited ==> visited[n]
      {
        assert persistent[..i + 1][..i] == persistent[..i];
        if persistent[i].changed {
          visited := visited[persistent[i].name := true];
        }
        i := i + 1;
      }
      assert persistent[..i] == persistent;
      var j := 0;
      while j < |local|
        invariant j <= |local|
        invariant visited.Keys == ChangedNames(persistent) + ChangedNames(local[..j])
        invariant forall n :: n in visited ==> visited[n]
      {
        assert local[..j + 1][..j] == local[..j];
        if local[j].changed {
          visited := visited[local[j].name := true];
        }
        j := j + 1;
      }
      assert local[..j] == local;
    }

    /**
     * The last step of `persistentPreRunE`: hand `Load` the bound file when
     * --config-file was given, and record a failure in the exit code.
     */
    method LoadSettings(store: Config.ConfigStore, visited: map<string, bool>, host: Config.Host,
                        read: Config.Source -> Config.ReadResult, attempt: Config.DecodeAttempt)
      returns (err: Option<string>)
      requires exitCode == ExitCodes.None
      modifies this`exitCode, store
      ensures var loaded := Config.LoadSpec(LoadArgument(visited, configFile), host, read, attempt);
        && err == (if loaded.Err? then Some(loaded.error) else None)
        && exitCode == (if loaded.Err? then ExitCodes.ConfigLoadFailure else ExitCodes.None)
        && store.snapshot == (if loaded.Ok? then loaded.value else old(store.snapshot))
      ensures var resolved := Config.Resolve(LoadArgument(visited, configFile), host);
        store.source == (if resolved.Ok? then Some(resolved.value.source) else old(store.source))
    {
      var file := "";
      if ConfigFileFlag in visited {
        file := configFile;
      }
      err := store.Load(file, host, read, attempt);
      if err.Some? {
        exitCode := ExitCodes.ConfigLoadFailure;
      }
    }

    /**
     * `persistentPreRunE`: start from a clean exit code, export the identity
     * variables in `order`, then load the settings into `store`. `failures`
     * gives the variables whose `os.Setenv` fails, with the error's text.
     */
    method PersistentPreRunE(store: Config.ConfigStore, host: Config.Host, info: App.BuildInfo, goos: string, goarch: string,
                             order: seq<string>, failures: map<string, string>, persistent: seq<Flag>, local: seq<Flag>,
                             read: Config.Source -> Config.ReadResult, attempt: Config.DecodeAttempt)
      returns (err: Option<string>, env: map<string, string>)
      requires ListsKeysOnce(order, ExportedVars(info, goos, goarch))
      modifies this`exitCode, store
      ensures var visited := Visited(persistent, local);
        var r := PreRun(configFile, host, ExportedVars(info, goos, goarch), order, failures, visited, read, attempt);
        exitCode == r.exitCode && err == r.err && env == r.env &&
        store.snapshot == (if r.exitCode == ExitCodes.None
                           then Config.LoadSpec(LoadArgument(visited, configFile), host.(env := env), read, attempt).value
                           else old(store.snapshot))
      ensures var visited := Visited(persistent, local);
        var resolved := Config.Resolve(LoadArgument(visited, configFile), host.(env := env));
        store.source == (if exitCode != ExitCodes.GeneralFailure && resolved.Ok? then Some(resolved.value.source)
                         else old(store.source))
    {
      exitCode := ExitCodes.None;

      var vars := ExportedVars(info, goos, goarch);
      var failed;
      env, failed := SetEnvironment(host.env, vars, order, failures);
      if failed.Some? {
        var key := failed.value;
        exitCode := ExitCodes.GeneralFailure;
        err := Some("failed to set environment variable '" + key + "': " + failures[VariableName(key)]);
        assert Export(host.env, vars, order, failures).failed == Some(key);
        return;
      }
      assert Export(host.env, vars, order, failures).failed == None;

      var visited := GetCommandLineFlags(persistent, local);
      assert visited == Visited(persistent, local);
      err := LoadSettings(store, visited, host.(env := env), read, attempt);
    }
  }
}
