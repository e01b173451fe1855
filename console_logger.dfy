/** The console backend (src/logger/console_logger.rs): filter, then print one line. */
module ConsoleLogger {
  import opened Wrappers
  import opened Levels
  import opened LogLine

  /**
   * The line printed to standard output for a message at `level` when the
   * console is configured at `verbosity`, or None when the message is filtered out.
   */
  function Write(verbosity: LogLevel, level: LogLevel, data: string): (printed: Option<string>)
    ensures printed.Some? <==> Rank(verbosity) <= Rank(level)
    ensures printed.Some? ==> Parse(printed.value) == Some(Entry(level, data))
    ensures printed.Some? ==> printed.value[..|Tag(level)|] == Tag(level)
  {
    if Rank(verbosity) <= Rank(level) then
      ParseFormat(level, data);
      Some(Format(level, data))
    else
      None
  }

  /** What is printed is exactly the formatted record: Write's contract pins the line down. */
  lemma PrintedIsFormat(verbosity: LogLevel, level: LogLevel, data: string)
    requires Write(verbosity, level, data).Some?
    ensures Write(verbosity, level, data).value == Format(level, data)
  {
    var line := Write(verbosity, level, data).value;
    FormatParse(line);
  }

  /** Under every configuration an Error message reaches the console. */
  lemma ErrorAlwaysPrinted(verbosity: LogLevel, data: string)
    ensures Write(verbosity, Error, data) == Some(Format(Error, data))
  {
    PrintedIsFormat(verbosity, Error, data);
  }
}
