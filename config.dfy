/**
 * internal/config/config.go: locating and reading the configuration file,
 * replacing the settings snapshot, and the loop that reacts to file-system
 * notifications about the file.
 */
module Config {
  import opened Base
  import opened Settings

  // ---------------------------------------------------------------------------
  // Locating the file
  // ---------------------------------------------------------------------------

  /** Where viper is pointed: one named file, or a base name searched for in a list of directories. */
  datatype Source = ConfigFile(path: string) | Search(dirs: seq<string>, name: string)

  /**
   * What `Load` asks the operating system for: the environment, the absolute
   * form of a path after environment expansion (`filepath.Abs(os.ExpandEnv(p))`,
   * which may fail), the working directory and the current user's home directory.
   */
  datatype Host = Host(
    env: map<string, string>,
    absPath: string -> Result<string>,
    cwd: Result<string>,
    home: Result<string>
  )

  /** `os.Getenv`: the empty string for an unset variable. */
  function Getenv(env: map<string, string>, key: string): string {
    if key in env then env[key] else ""
  }

  const ConfigFileVariable: string := EnvPrefix + "_CONFIG_FILE"

  /** `filepath.Join(dir, name)` for a clean directory and a single path element. */
  function JoinPath(dir: string, name: string): string {
    if dir == "" then name
    else if dir[|dir| - 1] == '/' then dir + name
    else dir + "/" + name
  }

  /** The default search: base name json-exec, first in the working directory, then in ~/.json-exec. */
  function DefaultSearch(cwd: string, home: string): Source {
    Search([cwd, JoinPath(home, DefaultConfigFolder)], DefaultConfigName)
  }

  /** The source chosen for viper, and whether it is the default search. */
  datatype Resolution = Resolution(source: Source, usingDefault: bool)

  /** The first half of `Load`: choose the file from the argument, then the environment, then the default search. */
  function Resolve(file: string, host: Host): (r: Result<Resolution>)
    ensures r.Ok? ==> (r.value.usingDefault <==> r.value.source.Search?)
    ensures r.Ok? && r.value.source.Search? ==> r.value.source.name == DefaultConfigName
  {
    var fromEnv := Getenv(host.env, ConfigFileVariable);
    if file != "" then
      match host.absPath(file)
      case Err(e) => Err("failed to determine absolute path of config file '" + file + "': " + e)
      case Ok(p) => Ok(Resolution(ConfigFile(p), false))
    else if fromEnv != "" then
      match host.absPath(fromEnv)
      case Err(e) => Err("failed to determine absolute path of config file '" + fromEnv + "': " + e)
      case Ok(p) => Ok(Resolution(ConfigFile(p), false))
    else if host.cwd.Err? then
      Err("unable to get current working directory: " + host.cwd.error)
    else if host.home.Err? then
      Err("unable to retrieve current user home directory: " + host.home.error)
    else
      Ok(Resolution(DefaultSearch(host.cwd.value, host.home.value), true))
  }

  /** A non-empty argument decides alone: the environment, working directory and home directory are never consulted. */
  lemma ArgumentWins(file: string, host: Host, other: Host)
    requires file != "" && other.absPath == host.absPath
    ensures Resolve(file, host) == Resolve(file, other)
    ensures Resolve(file, host).Ok? <==> host.absPath(file).Ok?
    ensures Resolve(file, host).Ok? ==> Resolve(file, host).value.source == ConfigFile(host.absPath(file).value)
  {
  }

  /** With no argument, a non-empty JSON_EXEC_CONFIG_FILE decides alone. */
  lemma EnvironmentWinsWithoutArgument(host: Host, other: Host)
    requires Getenv(host.env, ConfigFileVariable) != ""
    requires Getenv(other.env, ConfigFileVariable) == Getenv(host.env, ConfigFileVariable)
    requires other.absPath == host.absPath
    ensures Resolve("", host) == Resolve("", other)
    ensures Resolve("", host).Ok? ==>
      Resolve("", host).value.source == ConfigFile(host.absPath(Getenv(host.env, ConfigFileVariable)).value)
  {
  }

  /** The default search is used exactly when neither the argument nor the variable names a file and both directories are known. */
  lemma DefaultOnlyWhenNothingNamed(file: string, host: Host)
    ensures (Resolve(file, host).Ok? && Resolve(file, host).value.usingDefault) <==>
      (file == "" && Getenv(host.env, ConfigFileVariable) == "" && host.cwd.Ok? && host.home.Ok?)
    ensures Resolve(file, host).Ok? && Resolve(file, host).value.usingDefault ==>
      Resolve(file, host).value.source == DefaultSearch(host.cwd.value, host.home.value)
  {
  }

  // ---------------------------------------------------------------------------
  // Reading the file
  // ---------------------------------------------------------------------------

  /**
   * The outcome of viper's `ReadInConfig` on a source. `fileUsed` is what
   * `ConfigFileUsed()` reports after a failure other than "not found".
   */
  datatype ReadResult = ReadOk | NotFound | ReadFailed(fileUsed: string, error: string)

  /**
   * The second half of `Load`: the error a read outcome makes it return, if
   * any. The not-found message interpolates the function's outer `configFile`,
   * which the two explicit branches only shadow; it is always empty.
   */
  function ReadError(res: Resolution, read: ReadResult): (r: Option<string>)
    ensures read.ReadOk? ==> r == None
    ensures read.NotFound? ==> (r.Some? <==> !res.usingDefault)
    ensures read.NotFound? && r.Some? ==> r.value == "failed to load config file '': file not found"
    ensures read.ReadFailed? ==> r == Some("failed to load config file '" + read.fileUsed + "': " + read.error)
  {
    var configFile := "";
    match read
    case ReadOk => None
    case NotFound =>
      if res.usingDefault then None
      else Some("failed to load config file '" + configFile + "': file not found")
    case ReadFailed(used, e) => Some("failed to load config file '" + used + "': " + e)
  }

  /** A missing file is an error exactly when it was named explicitly; any other read failure always is. */
  lemma NotFoundPolicy(res: Resolution, read: ReadResult)
    ensures read.NotFound? ==> (ReadError(res, read).Some? <==> !res.usingDefault)
    ensures read.ReadFailed? ==> ReadError(res, read).Some?
  {
  }

  /** As written, the not-found message names no file, whatever path was requested. */
  lemma NotFoundMessageNamesNoFile(path: string)
    ensures ReadError(Resolution(ConfigFile(path), false), NotFound) ==
      Some("failed to load config file '': file not found")
  {
    assert "failed to load config file '" + "" + "': file not found" == "failed to load config file '': file not found";
  }

  // ---------------------------------------------------------------------------
  // Decoding the settings
  // ---------------------------------------------------------------------------

  /**
   * The two foreign steps of `Unmarshal`: marshalling viper's merged settings
   * to YAML, and unmarshalling that text into an `AppConfig`.
   */
  datatype DecodeAttempt = DecodeAttempt(marshalled: Result<string>, decoded: Result<AppConfig>)

  const ParseFailurePrefix: string := "failed to parse configuration settings: "

  /** What `Unmarshal` makes of an attempt: the new snapshot, or the error of the first step that failed. */
  function Decode(a: DecodeAttempt): (r: Result<AppConfig>)
    ensures r.Ok? <==> a.marshalled.Ok? && a.decoded.Ok?
    ensures r.Ok? ==> r.value == a.decoded.value
    ensures a.marshalled.Err? ==> r == Err(ParseFailurePrefix + a.marshalled.error)
    ensures a.marshalled.Ok? && a.decoded.Err? ==> r == Err(ParseFailurePrefix + a.decoded.error)
  {
    if a.marshalled.Err? then Err(ParseFailurePrefix + a.marshalled.error)
    else if a.decoded.Err? then Err(ParseFailurePrefix + a.decoded.error)
    else Ok(a.decoded.value)
  }

  /** What `Load` returns: resolution, then reading, then decoding, stopping at the first error. */
  function LoadSpec(file: string, host: Host, read: Source -> ReadResult, attempt: DecodeAttempt): (r: Result<AppConfig>)
    ensures Resolve(file, host).Err? ==> r == Err(Resolve(file, host).error)
    ensures Resolve(file, host).Ok? && ReadError(Resolve(file, host).value, read(Resolve(file, host).value.source)).Some? ==>
      r == Err(ReadError(Resolve(file, host).value, read(Resolve(file, host).value.source)).value)
    ensures Resolve(file, host).Ok? && ReadError(Resolve(file, host).value, read(Resolve(file, host).value.source)).None? ==>
      r == Decode(attempt)
    ensures r.Ok? ==> Decode(attempt).Ok? && r == Decode(attempt)
  {
    match Resolve(file, host)
    case Err(e) => Err(e)
    case Ok(res) =>
      match ReadError(res, read(res.source))
      case Some(e) => Err(e)
      case None => Decode(attempt)
  }

  /** With nothing named and no default file found, `Load` goes on to decode the built-in defaults without error. */
  lemma MissingDefaultFileIsNoError(host: Host, read: Source -> ReadResult, attempt: DecodeAttempt)
    requires Getenv(host.env, ConfigFileVariable) == "" && host.cwd.Ok? && host.home.Ok?
    requires read(DefaultSearch(host.cwd.value, host.home.value)) == NotFound
    ensures LoadSpec("", host, read, attempt) == Decode(attempt)
  {
  }

  /** A file named explicitly (argument or variable) that is not found makes `Load` fail, whatever would have been decoded. */
  lemma MissingNamedFileFails(file: string, host: Host, read: Source -> ReadResult, attempt: DecodeAttempt)
    requires file != "" || Getenv(host.env, ConfigFileVariable) != ""
    requires Resolve(file, host).Ok? && read(Resolve(file, host).value.source) == NotFound
    ensures LoadSpec(file, host, read, attempt).Err?
  {
    DefaultOnlyWhenNothingNamed(file, host);
  }

  /** `Load` succeeds only with the snapshot `Unmarshal` decodes. */
  lemma LoadSucceedsOnlyByDecoding(file: string, host: Host, read: Source -> ReadResult, attempt: DecodeAttempt)
    ensures LoadSpec(file, host, read, attempt).Ok? ==>
      Decode(attempt).Ok? && LoadSpec(file, host, read, attempt) == Decode(attempt)
  {
  }

  // ---------------------------------------------------------------------------
  // The settings store
  // ---------------------------------------------------------------------------

  /** The package-level state: `_config` (the snapshot `Get` returns) and what `_viper` was pointed at. */
  class ConfigStore {
    var snapshot: AppConfig
    var source: Option<Source>

    /** The zero-valued snapshot the package installs at start-up. */
    constructor ()
      ensures snapshot == ZeroConfig && source == None
    {
      snapshot := ZeroConfig;
      source := None;
    }

    /** `Unmarshal`: the snapshot is replaced only after both steps succeed. */
    method Unmarshal(attempt: DecodeAttempt) returns (err: Option<string>)
      modifies this`snapshot
      ensures Decode(attempt).Ok? ==> snapshot == Decode(attempt).value && err == None
      ensures Decode(attempt).Err? ==> snapshot == old(snapshot) && err == Some(Decode(attempt).error)
    {
      if attempt.marshalled.Err? {
        return Some(ParseFailurePrefix + attempt.marshalled.error);
      }
      if attempt.decoded.Err? {
        return Some(ParseFailurePrefix + attempt.decoded.error);
      }
      snapshot := attempt.decoded.value;
      err := None;
    }

    /** `reloadConfig`: a failed `Unmarshal` is only logged and the previous snapshot stays. */
    method ReloadConfig(attempt: DecodeAttempt)
      modifies this`snapshot
      ensures snapshot == if Decode(attempt).Ok? then Decode(attempt).value else old(snapshot)
    {
      var _ := Unmarshal(attempt);
    }

    /** `Load`: point viper at the chosen source, read it, then `Unmarshal`. */
    method Load(file: string, host: Host, read: Source -> ReadResult, attempt: DecodeAttempt) returns (err: Option<string>)
      modifies this
      ensures LoadSpec(file, host, read, attempt).Ok? ==>
        snapshot == LoadSpec(file, host, read, attempt).value && err == None
      ensures LoadSpec(file, host, read, attempt).Err? ==>
        snapshot == old(snapshot) && err == Some(LoadSpec(file, host, read, attempt).error)
      ensures source == if Resolve(file, host).Ok? then Some(Resolve(file, host).value.source) else old(source)
    {
      var resolved := Resolve(file, host);
      if resolved.Err? {
        return Some(resolved.error);
      }
      source := Some(resolved.value.source);
      var readErr := ReadError(resolved.value, read(resolved.value.source));
      if readErr.Some? {
        return readErr;
      }
      err := Unmarshal(attempt);
    }
  }

  // ---------------------------------------------------------------------------
  // Watching the file
  // ---------------------------------------------------------------------------

  /** fsnotify's operation bits. */
  const Create: bv32 := 1
  const Write: bv32 := 2
  const Remove: bv32 := 4
  const Rename: bv32 := 8
  const Chmod: bv32 := 16
  const WriteOrCreate: bv32 := Write | Create

  datatype Event = Event(name: string, op: bv32)

  /**
   * One receive of the watching goroutine, with what the world answers while
   * it is handled: for an event, the symlink target of the config file at that
   * moment ("" when it cannot be resolved), the error of viper's re-read if it
   * fails, and the decode a reload would perform.
   */
  datatype Delivery =
    | Notified(event: Event, target: string, reread: Option<string>, attempt: DecodeAttempt)
    | EventsClosed
    | ErrorReceived

  datatype Action = Reload | Stop | Ignore

  /** The test of one event against the cleaned config path and the last known symlink target. */
  function Classify(event: Event, configFile: string, clean: string -> string, target: string, realFile: string): (a: Action)
    ensures a == Reload <==>
      (clean(event.name) == configFile && event.op & WriteOrCreate != 0) || (target != "" && target != realFile)
    ensures a == Stop <==>
      a != Reload && clean(event.name) == configFile && event.op & Remove != 0
  {
    if (clean(event.name) == configFile && event.op & WriteOrCreate != 0) || (target != "" && target != realFile) then Reload
    else if clean(event.name) == configFile && event.op & Remove & Remove != 0 then Stop
    else Ignore
  }

  /** An event that both writes and removes the config file reloads and does not stop the loop. */
  lemma RemoveLosesToReload(configFile: string, clean: string -> string, target: string, realFile: string)
    requires clean(configFile) == configFile
    ensures Classify(Event(configFile, Write | Remove), configFile, clean, target, realFile) == Reload
  {
  }

  /** The watcher's state: `realConfigFile` and the snapshot. */
  datatype WatchState = WatchState(realFile: string, snapshot: AppConfig)

  /** One turn of the loop: the new state and whether the loop goes on. */
  function Handle(configFile: string, clean: string -> string, s: WatchState, d: Delivery): (r: (WatchState, bool))
    ensures !d.Notified? ==> r == (s, false)
    ensures d.Notified? && Classify(d.event, configFile, clean, d.target, s.realFile) == Reload ==>
      r.1 && r.0.realFile == d.target &&
      r.0.snapshot == (if d.reread.None? && Decode(d.attempt).Ok? then Decode(d.attempt).value else s.snapshot)
    ensures d.Notified? && Classify(d.event, configFile, clean, d.target, s.realFile) != Reload ==>
      r.0 == s && (r.1 <==> Classify(d.event, configFile, clean, d.target, s.realFile) == Ignore)
  {
    match d
    case EventsClosed => (s, false)
    case ErrorReceived => (s, false)
    case Notified(event, target, reread, attempt) =>
      match Classify(event, configFile, clean, target, s.realFile)
      case Reload =>
        var snapshot := if reread.None? && Decode(attempt).Ok? then Decode(attempt).value else s.snapshot;
        (WatchState(target, snapshot), true)
      case Stop => (s, false)
      case Ignore => (s, true)
  }

  /** Where the loop ends: the state, how many deliveries it took, and whether it returned. */
  datatype WatchEnd = WatchEnd(state: WatchState, handled: nat, stopped: bool)

  /** The event loop over a finite run of deliveries. */
  function Watch(configFile: string, clean: string -> string, s: WatchState, ds: seq<Delivery>): (e: WatchEnd)
    ensures e.handled <= |ds|
    ensures !e.stopped ==> e.handled == |ds|
    ensures e.stopped ==> e.handled > 0
    decreases |ds|
  {
    if ds == [] then WatchEnd(s, 0, false)
    else
      var (next, goOn) := Handle(configFile, clean, s, ds[0]);
      if !goOn then WatchEnd(next, 1, true)
      else
        var e := Watch(configFile, clean, next, ds[1..]);
        WatchEnd(e.state, e.handled + 1, e.stopped)
  }

  /** A delivery that reloads the snapshot: a re-read that succeeded and a decode that succeeded. */
  predicate GoodReload(d: Delivery) {
    d.Notified? && d.reread.None? && Decode(d.attempt).Ok?
  }

  /**
   * The snapshot the loop ends with is the one it started with or the decode of
   * a good reload among the deliveries it handled; `realConfigFile` likewise is
   * the initial one or the target seen with a handled event.
   */
  lemma {:induction false} WatchProvenance(configFile: string, clean: string -> string, s: WatchState, ds: seq<Delivery>)
    ensures var e := Watch(configFile, clean, s, ds);
      e.state.snapshot == s.snapshot ||
      exists i :: 0 <= i < e.handled && GoodReload(ds[i]) && e.state.snapshot == Decode(ds[i].attempt).value
    ensures var e := Watch(configFile, clean, s, ds);
      e.state.realFile == s.realFile ||
      exists i :: 0 <= i < e.handled && ds[i].Notified? && e.state.realFile == ds[i].target
    decreases |ds|
  {
    if ds != [] {
      var (next, goOn) := Handle(configFile, clean, s, ds[0]);
      if goOn {
        WatchProvenance(configFile, clean, next, ds[1..]);
        var e := Watch(configFile, clean, next, ds[1..]);
        if e.state.snapshot != next.snapshot {
          var i :| 0 <= i < e.handled && GoodReload(ds[1..][i]) && e.state.snapshot == Decode(ds[1..][i].attempt).value;
          assert GoodReload(ds[i + 1]);
        }
        if e.state.realFile != next.realFile {
          var i :| 0 <= i < e.handled && ds[1..][i].Notified? && e.state.realFile == ds[1..][i].target;
          assert ds[i + 1].Notified?;
        }
      }
    }
  }

  /** Without a good reload among the deliveries, the snapshot survives the loop unchanged. */
  lemma {:induction false} NoGoodReloadKeepsSnapshot(configFile: string, clean: string -> string, s: WatchState, ds: seq<Delivery>)
    requires forall i :: 0 <= i < |ds| ==> !GoodReload(ds[i])
    ensures Watch(configFile, clean, s, ds).state.snapshot == s.snapshot
  {
    WatchProvenance(configFile, clean, s, ds);
  }

  /** Once the loop has returned, whatever would have been delivered afterwards is never looked at. */
  lemma {:induction false} WatchIgnoresAfterStop(configFile: string, clean: string -> string, s: WatchState, ds: seq<Delivery>, later: seq<Delivery>)
    requires Watch(configFile, clean, s, ds).stopped
    ensures Watch(configFile, clean, s, ds + later) == Watch(configFile, clean, s, ds)
    decreases |ds|
  {
    assert (ds + later)[0] == ds[0];
    var (next, goOn) := Handle(configFile, clean, s, ds[0]);
    if goOn {
      assert (ds + later)[1..] == ds[1..] + later;
      WatchIgnoresAfterStop(configFile, clean, next, ds[1..], later);
    }
  }

  /** After a first delivery that goes on, the state before delivery `k` is the rest's state before delivery `k - 1`. */
  lemma {:induction false} WatchPrefixShift(configFile: string, clean: string -> string, s: WatchState, ds: seq<Delivery>, k: nat)
    requires 0 < k <= |ds| && Handle(configFile, clean, s, ds[0]).1
    ensures Watch(configFile, clean, s, ds[..k]).state ==
      Watch(configFile, clean, Handle(configFile, clean, s, ds[0]).0, ds[1..][..k - 1]).state
  {
    assert ds[..k][0] == ds[0];
    assert ds[..k][1..] == ds[1..][..k - 1];
  }

  /**
   * The loop ends exactly at the first delivery on which `Handle` says stop:
   * every delivery before the last one handled goes on, and when the loop has
   * returned, the last one handled is a stop.
   */
  lemma {:induction false} WatchStopsAtFirstStop(configFile: string, clean: string -> string, s: WatchState, ds: seq<Delivery>)
    ensures var e := Watch(configFile, clean, s, ds);
      forall k :: 0 <= k < e.handled && (k < e.handled - 1 || !e.stopped) ==>
        Handle(configFile, clean, Watch(configFile, clean, s, ds[..k]).state, ds[k]).1
    ensures var e := Watch(configFile, clean, s, ds);
      e.stopped ==> !Handle(configFile, clean, Watch(configFile, clean, s, ds[..e.handled - 1]).state, ds[e.handled - 1]).1
    decreases |ds|
  {
    if ds != [] {
      assert ds[..0] == [];
      var (next, goOn) := Handle(configFile, clean, s, ds[0]);
      if goOn {
        WatchStopsAtFirstStop(configFile, clean, next, ds[1..]);
        var e := Watch(configFile, clean, s, ds);
        var rest := Watch(configFile, clean, next, ds[1..]);
        assert e.handled == rest.handled + 1 && e.stopped == rest.stopped;
        forall k | 0 < k < e.handled && (k < e.handled - 1 || !e.stopped)
          ensures Handle(configFile, clean, Watch(configFile, clean, s, ds[..k]).state, ds[k]).1
        {
          WatchPrefixShift(configFile, clean, s, ds, k);
          assert ds[k] == ds[1..][k - 1];
        }
        if e.stopped {
          WatchPrefixShift(configFile, clean, s, ds, e.handled - 1);
          assert ds[e.handled - 1] == ds[1..][rest.handled - 1];
        }
      }
    }
  }

  /** A closed events channel or a receive on the errors channel ends the loop there at the latest. */
  lemma {:induction false} WatchEndsByClose(configFile: string, clean: string -> string, s: WatchState, ds: seq<Delivery>, k: nat)
    requires k < |ds| && !ds[k].Notified?
    ensures Watch(configFile, clean, s, ds).stopped && Watch(configFile, clean, s, ds).handled <= k + 1
  {
    WatchStopsAtFirstStop(configFile, clean, s, ds);
  }

  /**
   * A Remove event on the config file that does not reload, met in the state
   * the loop has reached, ends the loop there at the latest.
   */
  lemma {:induction false} WatchEndsByRemove(configFile: string, clean: string -> string, s: WatchState, ds: seq<Delivery>, k: nat)
    requires k < |ds| && ds[k].Notified?
    requires Classify(ds[k].event, configFile, clean, ds[k].target, Watch(configFile, clean, s, ds[..k]).state.realFile) == Stop
    ensures Watch(configFile, clean, s, ds).stopped && Watch(configFile, clean, s, ds).handled <= k + 1
  {
    WatchStopsAtFirstStop(configFile, clean, s, ds);
  }

  /**
   * The goroutine's `for { select { ... } }` loop, run over a finite sequence of
   * deliveries. It returns the final `realConfigFile`, how many deliveries it
   * took and whether it returned; the store's snapshot changes only through
   * `ReloadConfig`.
   */
  method WatchLoop(store: ConfigStore, configFile: string, clean: string -> string, initialReal: string, ds: seq<Delivery>)
    returns (realConfigFile: string, handled: nat, stopped: bool)
    modifies store`snapshot
    ensures var e := Watch(configFile, clean, WatchState(initialReal, old(store.snapshot)), ds);
      realConfigFile == e.state.realFile && store.snapshot == e.state.snapshot &&
      handled == e.handled && stopped == e.stopped
  {
    ghost var whole := Watch(configFile, clean, WatchState(initialReal, store.snapshot), ds);
    realConfigFile, handled, stopped := initialReal, 0, false;
    while handled < |ds| && !stopped
      invariant handled <= |ds|
      invariant stopped ==> whole == WatchEnd(WatchState(realConfigFile, store.snapshot), handled, true)
      invariant !stopped ==>
        var rest := Watch(configFile, clean, WatchState(realConfigFile, store.snapshot), ds[handled..]);
        whole == WatchEnd(rest.state, handled + rest.handled, rest.stopped)
      decreases |ds| - handled
    {
      assert ds[handled..][0] == ds[handled] && ds[handled..][1..] == ds[handled + 1..];
      match ds[handled] {
        case EventsClosed =>
          stopped := true;
        case ErrorReceived =>
          stopped := true;
        case Notified(event, target, reread, attempt) =>
          var action := Classify(event, configFile, clean, target, realConfigFile);
          if action == Reload {
            realConfigFile := target;
            if reread.None? {
              store.ReloadConfig(attempt);
            }
          } else if action == Stop {
            stopped := true;
          }
      }
      handled := handled + 1;
    }
  }
}
