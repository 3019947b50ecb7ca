/**
 * internal/config/global.go: decoding the `global` settings section into its
 * receiver and applying it to the logger's process-wide state (level, output
 * field names, extra context fields).
 */
module Global {
  import opened Base
  import opened Logging
  import opened Settings
  import Text

  /** `order` is a visiting order of the extra fields a successful decode produced. */
  predicate OrderFits(decoded: Result<GlobalSettings>, order: seq<string>) {
    decoded.Ok? && decoded.value.extraFields.Some? ==> ListsKeysOnce(order, decoded.value.extraFields.value)
  }

  /** The value "none", in any letter case, switches output off instead of naming a level. */
  predicate IsNone(raw: string) {
    Text.EqualFold(raw, "none")
  }

  /** "none" is recognised in every mix of letter cases, and no other text is. */
  lemma IsNoneAnyCase(s: string)
    ensures IsNone(s) <==>
      |s| == 4 && s[0] in {'n', 'N'} && s[1] in {'o', 'O'} && s[2] in {'n', 'N'} && s[3] in {'e', 'E'}
  {
    if IsNone(s) {
      assert Text.Lower(s[0]) == 'n' && Text.Lower(s[1]) == 'o' && Text.Lower(s[2]) == 'n' && Text.Lower(s[3]) == 'e';
    }
  }

  /** An output field name: the configured one, or the default when it is blank. */
  function NameOrDefault(configured: string, default: string): (n: string)
    ensures configured != "" ==> n == configured
    ensures configured == "" ==> n == default
  {
    if configured == "" then default else configured
  }

  /** The `field` that one extra entry adds to a logger. */
  function ExtraField(m: map<string, string>, k: string): Field
    requires k in m
  {
    Field(k, Str(m[k]))
  }

  /**
   * The loop over the extra fields as written: every turn starts again from
   * the global logger `g`, throwing away what the previous turn built.
   */
  function ExtraFieldsLoop(g: Logger, logger: Logger, m: map<string, string>, order: seq<string>): (r: Logger)
    requires forall i :: 0 <= i < |order| ==> order[i] in m
    ensures logger.level == g.level ==> r.level == g.level
    decreases |order|
  {
    if order == [] then logger
    else ExtraFieldsLoop(g, With(g, [ExtraField(m, order[0])]), m, order[1..])
  }

  /** The logger the loop leaves: the global logger plus the one field visited last. */
  lemma {:induction false} ExtraFieldsKeepOnlyLast(g: Logger, logger: Logger, m: map<string, string>, order: seq<string>)
    requires order != [] && forall i :: 0 <= i < |order| ==> order[i] in m
    ensures ExtraFieldsLoop(g, logger, m, order) == With(g, [ExtraField(m, order[|order| - 1])])
    decreases |order|
  {
    if |order| > 1 {
      ExtraFieldsKeepOnlyLast(g, With(g, [ExtraField(m, order[0])]), m, order[1..]);
    }
  }

  /** With two or more extra fields, the rebuilt global logger carries exactly one of them. */
  lemma ExtraFieldsDropAllButOne(g: Logger, m: map<string, string>, order: seq<string>)
    requires ListsKeysOnce(order, m) && |order| >= 2
    ensures |ExtraFieldsLoop(g, g, m, order).context| == |g.context| + 1
    ensures ExtraFieldsLoop(g, g, m, order).context[|g.context|].key == order[|order| - 1] != order[0]
  {
    ExtraFieldsKeepOnlyLast(g, g, m, order);
  }

  /** The global logger after the extra-field step: replaced only when the map is non-nil. */
  function ExtraFieldsLogger(g: Logger, extra: Option<map<string, string>>, order: seq<string>): Logger
    requires extra.Some? ==> ListsKeysOnce(order, extra.value)
  {
    match extra
    case None => g
    case Some(m) => ExtraFieldsLoop(g, g, m, order)
  }

  /** The field-name and extra-field steps, run once the level has been dealt with. */
  function ApplyOutput(c: GlobalSettings, log: LogSettings, order: seq<string>): (r: LogSettings)
    requires c.extraFields.Some? ==> ListsKeysOnce(order, c.extraFields.value)
    ensures r.levelFieldName != "" && r.messageFieldName != "" && r.timestampFieldName != ""
    ensures c.levelFieldName != "" ==> r.levelFieldName == c.levelFieldName
    ensures c.messageFieldName != "" ==> r.messageFieldName == c.messageFieldName
    ensures c.timestampFieldName != "" ==> r.timestampFieldName == c.timestampFieldName
    ensures r.global.level == log.global.level
    ensures c.extraFields.None? ==> r.global == log.global
  {
    LogSettings(
      ExtraFieldsLogger(log.global, c.extraFields, order),
      NameOrDefault(c.levelFieldName, DefaultLogLevelFieldName),
      NameOrDefault(c.messageFieldName, DefaultLogMessageFieldName),
      NameOrDefault(c.timestampFieldName, DefaultLogTimestampFieldName)
    )
  }

  /** The receiver after the call, the logger's state after it, and the error returned. */
  datatype GlobalOutcome = GlobalOutcome(cfg: GlobalSettings, log: LogSettings, err: Option<string>)

  /**
   * `UnmarshalYAML` as a function of the receiver's old value, the logger's
   * state, the inner decode and the level parser (`zerolog.ParseLevel`).
   */
  function DecodeGlobal(prior: GlobalSettings, log: LogSettings, decoded: Result<GlobalSettings>,
                        parse: string -> Result<Level>, order: seq<string>): (r: GlobalOutcome)
    requires OrderFits(decoded, order)
    ensures decoded.Err? ==> r == GlobalOutcome(prior, log, Some(decoded.error))
    ensures decoded.Ok? ==> r.cfg == decoded.value.(logLevel := r.cfg.logLevel)
  {
    match decoded
    case Err(e) => GlobalOutcome(prior, log, Some(e))
    case Ok(c) =>
      if IsNone(c.logLevelRaw) then
        GlobalOutcome(c, ApplyOutput(c, log.(global := Logger(Disabled, log.global.context)), order), None)
      else
        match parse(c.logLevelRaw)
        case Err(e) =>
          GlobalOutcome(c, log, Some("failed to parse log level '" + c.logLevelRaw + "': " + e))
        case Ok(level) =>
          GlobalOutcome(c.(logLevel := level), ApplyOutput(c, log.(global := Logger(level, log.global.context)), order), None)
  }

  /** "none" in any case disables the global logger without consulting the parser, and leaves the decoded level as it was. */
  lemma NoneDisablesOutput(prior: GlobalSettings, log: LogSettings, decoded: Result<GlobalSettings>,
                           parse: string -> Result<Level>, other: string -> Result<Level>, order: seq<string>)
    requires OrderFits(decoded, order) && decoded.Ok? && IsNone(decoded.value.logLevelRaw)
    ensures DecodeGlobal(prior, log, decoded, parse, order) == DecodeGlobal(prior, log, decoded, other, order)
    ensures DecodeGlobal(prior, log, decoded, parse, order).err == None
    ensures DecodeGlobal(prior, log, decoded, parse, order).log.global.level == Disabled
    ensures DecodeGlobal(prior, log, decoded, parse, order).cfg == decoded.value
  {
  }

  /** Any other value goes through the parser; on success the receiver and the global logger both take the parsed level. */
  lemma ParsedLevelApplied(prior: GlobalSettings, log: LogSettings, decoded: Result<GlobalSettings>,
                           parse: string -> Result<Level>, order: seq<string>)
    requires OrderFits(decoded, order) && decoded.Ok? && !IsNone(decoded.value.logLevelRaw)
    requires parse(decoded.value.logLevelRaw).Ok?
    ensures DecodeGlobal(prior, log, decoded, parse, order).err == None
    ensures DecodeGlobal(prior, log, decoded, parse, order).cfg.logLevel == parse(decoded.value.logLevelRaw).value
    ensures DecodeGlobal(prior, log, decoded, parse, order).log.global.level == parse(decoded.value.logLevelRaw).value
  {
  }

  /**
   * A level the parser rejects aborts with an error naming the raw value, after
   * the receiver has already been overwritten; the logger's state is untouched.
   */
  lemma BadLevelAbortsAfterOverwrite(prior: GlobalSettings, log: LogSettings, decoded: Result<GlobalSettings>,
                                     parse: string -> Result<Level>, order: seq<string>)
    requires OrderFits(decoded, order) && decoded.Ok? && !IsNone(decoded.value.logLevelRaw)
    requires parse(decoded.value.logLevelRaw).Err?
    ensures DecodeGlobal(prior, log, decoded, parse, order) ==
      GlobalOutcome(decoded.value, log,
        Some("failed to parse log level '" + decoded.value.logLevelRaw + "': " + parse(decoded.value.logLevelRaw).error))
  {
  }

  /** After a successful call every output field name is set, to the configured name or else its default; none is blank. */
  lemma FieldNamesNeverBlank(prior: GlobalSettings, log: LogSettings, decoded: Result<GlobalSettings>,
                             parse: string -> Result<Level>, order: seq<string>)
    requires OrderFits(decoded, order)
    ensures var r := DecodeGlobal(prior, log, decoded, parse, order);
      r.err == None ==>
        && decoded.Ok?
        && r.log.levelFieldName == NameOrDefault(decoded.value.levelFieldName, "@level")
        && r.log.messageFieldName == NameOrDefault(decoded.value.messageFieldName, "@message")
        && r.log.timestampFieldName == NameOrDefault(decoded.value.timestampFieldName, "@timestamp")
        && r.log.levelFieldName != "" && r.log.messageFieldName != "" && r.log.timestampFieldName != ""
  {
  }

  /** The global logger gains context only from a non-nil extra-field map, and then exactly one field. */
  lemma ExtraFieldsOnlyFromMap(prior: GlobalSettings, log: LogSettings, decoded: Result<GlobalSettings>,
                               parse: string -> Result<Level>, order: seq<string>)
    requires OrderFits(decoded, order)
    ensures var r := DecodeGlobal(prior, log, decoded, parse, order);
      r.err == None ==>
        && (decoded.value.extraFields.None? || order == [] ==> r.log.global.context == log.global.context)
        && (decoded.value.extraFields.Some? && order != [] ==>
              r.log.global.context == log.global.context +
                [ExtraField(decoded.value.extraFields.value, order[|order| - 1])])
  {
    var r := DecodeGlobal(prior, log, decoded, parse, order);
    if r.err == None && decoded.value.extraFields.Some? && order != [] {
      var c := decoded.value;
      var g := Logger(if IsNone(c.logLevelRaw) then Disabled else parse(c.logLevelRaw).value, log.global.context);
      ExtraFieldsKeepOnlyLast(g, g, c.extraFields.value, order);
    }
  }

  /** The receiver of `UnmarshalYAML`. */
  class GlobalConfig {
    var extraFields: Option<map<string, string>>
    var levelFieldName: string
    var logLevel: Level
    var logLevelRaw: string
    var messageFieldName: string
    var timestampFieldName: string

    function Value(): GlobalSettings
      reads this
    {
      GlobalSettings(extraFields, levelFieldName, logLevel, logLevelRaw, messageFieldName, timestampFieldName)
    }

    constructor (v: GlobalSettings)
      ensures Value() == v
    {
      extraFields, levelFieldName, logLevel := v.extraFields, v.levelFieldName, v.logLevel;
      logLevelRaw, messageFieldName, timestampFieldName := v.logLevelRaw, v.messageFieldName, v.timestampFieldName;
    }

    /** `UnmarshalYAML`: `decoded` is the inner `value.Decode(&cfg)`, `order` the visiting order of the extra fields. */
    method UnmarshalYAML(decoded: Result<GlobalSettings>, parse: string -> Result<Level>, order: seq<string>, sink: Sink)
      returns (err: Option<string>)
      requires OrderFits(decoded, order)
      modifies this, sink`global, sink`levelFieldName, sink`messageFieldName, sink`timestampFieldName
      ensures var r := DecodeGlobal(old(Value()), old(sink.Settings()), decoded, parse, order);
        Value() == r.cfg && sink.Settings() == r.log && err == r.err
    {
      if decoded.Err? {
        return Some(decoded.error);
      }
      var cfg := decoded.value;
      extraFields, levelFieldName, logLevel := cfg.extraFields, cfg.levelFieldName, cfg.logLevel;
      logLevelRaw, messageFieldName, timestampFieldName := cfg.logLevelRaw, cfg.messageFieldName, cfg.timestampFieldName;

      if IsNone(logLevelRaw) {
        sink.SetLevel(Disabled);
      } else {
        var level := parse(logLevelRaw);
        if level.Err? {
          return Some("failed to parse log level '" + logLevelRaw + "': " + level.error);
        }
        logLevel := level.value;
        sink.SetLevel(level.value);
      }

      SetFieldNames(sink);
      AddExtraFields(sink, order);
      err := None;
    }

    /** Lines 58-73: each output field name becomes the configured one, or its default when blank. */
    method SetFieldNames(sink: Sink)
      modifies sink`levelFieldName, sink`messageFieldName, sink`timestampFieldName
      ensures sink.levelFieldName == NameOrDefault(levelFieldName, DefaultLogLevelFieldName)
      ensures sink.messageFieldName == NameOrDefault(messageFieldName, DefaultLogMessageFieldName)
      ensures sink.timestampFieldName == NameOrDefault(timestampFieldName, DefaultLogTimestampFieldName)
    {
      if levelFieldName == "" {
        sink.levelFieldName := DefaultLogLevelFieldName;
      } else {
        sink.levelFieldName := levelFieldName;
      }
      if messageFieldName == "" {
        sink.messageFieldName := DefaultLogMessageFieldName;
      } else {
        sink.messageFieldName := messageFieldName;
      }
      if timestampFieldName == "" {
        sink.timestampFieldName := DefaultLogTimestampFieldName;
      } else {
        sink.timestampFieldName := timestampFieldName;
      }
    }

    /** Lines 76-82: the loop over the extra fields, then the replacement of the global logger. */
    method AddExtraFields(sink: Sink, order: seq<string>)
      requires extraFields.Some? ==> ListsKeysOnce(order, extraFields.value)
      modifies sink`global
      ensures sink.global == ExtraFieldsLogger(old(sink.global), extraFields, order)
    {
      var logger := sink.global;
      if extraFields.Some? {
        var m := extraFields.value;
        var i := 0;
        while i < |order|
          invariant i <= |order|
          invariant ExtraFieldsLoop(sink.global, logger, m, order[i..]) == ExtraFieldsLoop(sink.global, sink.global, m, order)
        {
          assert order[i..][1..] == order[i + 1..];
          logger := With(sink.global, [ExtraField(m, order[i])]);
          i := i + 1;
        }
        var _ := sink.ReplaceGlobal(logger);
      }
    }
  }
}
