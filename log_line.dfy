/**
 * The text of one log record, `[NAME]: data`, as both the console backend
 * (src/logger/console_logger.rs) and the file backend (src/logger/file_logger.rs)
 * write it, and a reader that recovers the level and the payload from it.
 */
module LogLine {
  import opened Wrappers
  import opened Levels

  /** A record: the level a message was logged at and its payload. */
  datatype Entry = Entry(level: LogLevel, data: string)

  /** The tag in front of the payload, `[NAME]: `, without its terminal colouring. */
  function Tag(level: LogLevel): (t: string)
    ensures |t| == |Name(level)| + 4 && t[0] == '[' && t[1..|t| - 3] == Name(level)
    ensures t[|t| - 3..] == "]: "
  {
    "[" + Name(level) + "]: "
  }

  /** The line logged for `data` at `level`. */
  function Format(level: LogLevel, data: string): (line: string)
    ensures |line| == |Tag(level)| + |data|
    ensures line[..|Tag(level)|] == Tag(level) && line[|Tag(level)|..] == data
  {
    Tag(level) + data
  }

  /** The first position at or after `from` holding `c`, or `|s|` when there is none. */
  function IndexOf(s: string, c: char, from: nat): (k: nat)
    requires from <= |s|
    ensures from <= k <= |s|
    ensures k < |s| ==> s[k] == c
    ensures forall i :: from <= i < k ==> s[i] != c
    decreases |s| - from
  {
    if from == |s| || s[from] == c then from else IndexOf(s, c, from + 1)
  }

  /** Reads a line back: the tag ends at the first `]`, which no level name contains. */
  function Parse(line: string): (r: Option<Entry>)
  {
    if |line| == 0 || line[0] != '[' then None
    else
      var k := IndexOf(line, ']', 1);
      if k + 3 > |line| || line[k..k + 3] != "]: " then None
      else
        match LevelNamed(line[1..k])
        case None => None
        case Some(level) => Some(Entry(level, line[k + 3..]))
  }

  /** Every formatted line reads back as the record it was made from. */
  lemma ParseFormat(level: LogLevel, data: string)
    ensures Parse(Format(level, data)) == Some(Entry(level, data))
  {
    var line := Format(level, data);
    var n := |Name(level)|;
    var t := Tag(level);
    assert line[0] == t[0] == '[';
    assert line[1..n + 1] == t[1..n + 1] == Name(level);
    assert line[n + 1..n + 4] == t[n + 1..] == "]: ";
    var k := IndexOf(line, ']', 1);
    assert k == n + 1 by {
      assert line[n + 1] == ']';
    }
    NameRoundTrip(level);
  }

  /** Every line that reads back as a record is exactly that record's formatted line. */
  lemma FormatParse(line: string)
    requires Parse(line).Some?
    ensures Format(Parse(line).value.level, Parse(line).value.data) == line
  {
    var e := Parse(line).value;
    var k := IndexOf(line, ']', 1);
    assert Name(e.level) == line[1..k];
    assert line == line[..1] + line[1..k] + line[k..k + 3] + line[k + 3..];
  }

  /** Distinct records never produce the same line. */
  lemma FormatInjective(a: Entry, b: Entry)
    requires Format(a.level, a.data) == Format(b.level, b.data)
    ensures a == b
  {
    ParseFormat(a.level, a.data);
    ParseFormat(b.level, b.data);
  }
}
