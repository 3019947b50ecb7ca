/**
 * The structured logger the program writes through: loggers are values that
 * carry a minimum level and a list of context fields; the library's global
 * state (the global logger and the three output field names) and what the
 * program hands to it (records, plain text) live in one `Sink` object.
 */
module Logging {

  datatype Level = Trace | Debug | Info | Warn | Error | Fatal | Panic | NoLevel | Disabled

  datatype Value = Str(s: string) | Int(i: int) | Strs(items: seq<string>)

  datatype Field = Field(key: string, value: Value)

  datatype Logger = Logger(level: Level, context: seq<Field>)

  /** One log record as submitted: its level, the emitting logger's context fields and its message. */
  datatype Record = Record(level: Level, context: seq<Field>, message: string)

  /** The library's process-wide settings: the global logger and the output field names. */
  datatype LogSettings = LogSettings(
    global: Logger,
    levelFieldName: string,
    messageFieldName: string,
    timestampFieldName: string
  )

  /**
   * `parent.With().<fields>.Logger()`: a child logger whose context is the
   * parent's followed by `fields`, at the parent's level.
   */
  function With(parent: Logger, fields: seq<Field>): (l: Logger)
    ensures l.level == parent.level
    ensures |l.context| == |parent.context| + |fields|
    ensures l.context[..|parent.context|] == parent.context
    ensures l.context[|parent.context|..] == fields
  {
    Logger(parent.level, parent.context + fields)
  }

  /** The keys of a list of fields, in order. */
  function Keys(fields: seq<Field>): (ks: seq<string>)
    ensures |ks| == |fields|
    ensures forall i :: 0 <= i < |fields| ==> ks[i] == fields[i].key
  {
    if fields == [] then [] else [fields[0].key] + Keys(fields[1..])
  }

  class Sink {
    /** `log.Logger`, the logger every `log.With()` and `log.Info()` starts from. */
    var global: Logger
    /** `zerolog.LevelFieldName`, `zerolog.MessageFieldName`, `zerolog.TimestampFieldName`. */
    var levelFieldName: string
    var messageFieldName: string
    var timestampFieldName: string
    /** Every record submitted so far, oldest first. */
    var records: seq<Record>
    /** Every piece of plain text written to standard output, oldest first. */
    var printed: seq<string>

    function Settings(): LogSettings
      reads this
    {
      LogSettings(global, levelFieldName, messageFieldName, timestampFieldName)
    }

    /** The library's defaults for the field names, with `root` as the global logger. */
    constructor (root: Logger)
      ensures global == root
      ensures levelFieldName == "level" && messageFieldName == "message" && timestampFieldName == "time"
      ensures records == [] && printed == []
    {
      global := root;
      levelFieldName, messageFieldName, timestampFieldName := "level", "message", "time";
      records, printed := [], [];
    }

    /** `l.<level>().Msg(message)` */
    method Emit(l: Logger, level: Level, message: string)
      modifies this`records
      ensures records == old(records) + [Record(level, l.context, message)]
    {
      records := records + [Record(level, l.context, message)];
    }

    /** `fmt.Printf("%s", text)` */
    method Print(text: string)
      modifies this`printed
      ensures printed == old(printed) + [text]
    {
      printed := printed + [text];
    }

    /** `log.ReplaceGlobal(l)`: installs `l`, handing back the logger it replaced. */
    method ReplaceGlobal(l: Logger) returns (previous: Logger)
      modifies this`global
      ensures global == l && previous == old(global)
    {
      previous := global;
      global := l;
    }

    /** `log.SetLevel(level)`: the global logger keeps its context and takes the new level. */
    method SetLevel(level: Level)
      modifies this`global
      ensures global == Logger(level, old(global.context))
    {
      global := Logger(level, global.context);
    }
  }
}
