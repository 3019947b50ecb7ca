/**
 * internal/config/log.go: the writer installed under Go's standard `log`
 * package, which turns each line the standard logger writes into one
 * structured record.
 */
module GoLog {
  import opened Base
  import opened Logging
  import Text

  newtype byte = x: int | 0 <= x < 256

  const Newline: byte := 10

  /** Go's `string(p)`: the same bytes read as text, one character per byte. */
  function AsText(p: seq<byte>): (s: string)
    ensures |s| == |p|
    ensures forall i :: 0 <= i < |p| ==> s[i] as int == p[i] as int
  {
    seq(|p|, i requires 0 <= i < |p| => p[i] as int as char)
  }

  /** The `log_message` text: the bytes written, without one final newline. */
  function Message(p: seq<byte>): (m: string)
    ensures |p| - 1 <= |m| <= |p|
    ensures m == AsText(p)[..|m|]
    ensures |m| < |p| ==> p[|p| - 1] == Newline
  {
    Text.TrimSuffix(AsText(p), "\n")
  }

  /** What `Write` gives back and the one record it submits. */
  datatype WriteOutcome = WriteOutcome(n: int, err: Option<string>, emitted: Record)

  /** `defaultLogWriter.Write(p)` with the global logger `global`. */
  function Write(global: Logger, p: seq<byte>): (r: WriteOutcome)
    ensures r.n == |p| && r.err == None
    ensures r.emitted.level == Info
    ensures r.emitted.context == global.context + [Field("log_message", Str(Message(p)))]
    ensures r.emitted.message == "internal Go log message detected: " + Message(p)
  {
    var message := Message(p);
    WriteOutcome(|p|, None, Record(Info, global.context + [Field("log_message", Str(message))],
                                   "internal Go log message detected: " + message))
  }

  /** A trailing newline is removed, and putting it back gives the written text again. */
  lemma MessageDropsFinalNewline(p: seq<byte>)
    requires p != [] && p[|p| - 1] == Newline
    ensures Message(p) == AsText(p[..|p| - 1])
    ensures Message(p) + "\n" == AsText(p)
  {
    assert AsText(p)[|p| - 1..] == "\n";
    assert AsText(p)[..|p| - 1] == AsText(p[..|p| - 1]);
  }

  /** Text that does not end in a newline passes through unchanged. */
  lemma MessageKeepsOtherText(p: seq<byte>)
    requires p == [] || p[|p| - 1] != Newline
    ensures Message(p) == AsText(p)
  {
    if p != [] {
      assert AsText(p)[|p| - 1..] != "\n" by {
        assert AsText(p)[|p| - 1..][0] as int == p[|p| - 1] as int;
      }
    }
  }

  /** Only one newline goes: "a\n\n" becomes "a\n". */
  lemma OnlyOneNewlineTrimmed()
    ensures Message([97, Newline, Newline]) == "a\n"
  {
    MessageDropsFinalNewline([97, Newline, Newline]);
    assert [97, Newline, Newline][..2] == [97 as byte, Newline];
    assert AsText([97, Newline]) == "a\n";
  }
}
