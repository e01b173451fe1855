/**
 * The logger (src/logger/mod.rs): the closed set of destinations, changing the
 * verbosity in place, and dispatching a message to the backend of the active
 * destination. `SharedLogger` is the process-wide `LOGGER` the remote-call
 * handlers lock and update.
 */
module Logging {
  import opened Wrappers
  import opened Levels
  import opened LogLine
  import opened Host
  import ConsoleLogger
  import FileLogger

  /** The active destination and its verbosity (`enum Logger`). */
  datatype Logger =
    | None
    | Console(verbosity: LogLevel)
    | File(verbosity: LogLevel, filePath: string)
    | Dir(verbosity: LogLevel, dirPath: string)
  {
    /** `Logger::default()`: the console, letting every level through. */
    static function Default(): (r: Logger)
      ensures r.Console?
      ensures forall level :: Emits(r.verbosity, level)
    {
      Console(LogLevel.Verbose)
    }

    /** Both loggers write to the same place (same variant, same path), whatever their verbosity. */
    predicate SameDestination(other: Logger)
    {
      match this
      case None => other.None?
      case Console(_) => other.Console?
      case File(_, path) => other.File? && other.filePath == path
      case Dir(_, path) => other.Dir? && other.dirPath == path
    }

    /** The logger after `set_verbosity(level)`: same destination, the new verbosity, None untouched. */
    function WithVerbosity(level: LogLevel): (r: Logger)
      ensures SameDestination(r)
      ensures !r.None? ==> r.verbosity == level
    {
      match this
      case None => Logger.None
      case Console(_) => Console(level)
      case File(_, path) => File(level, path)
      case Dir(_, path) => Dir(level, path)
    }

    /** The backend call `write(log_level, data)` makes on this logger. */
    function Write(level: LogLevel, data: string): (call: BackendCall)
      ensures call.NoCall? <==> None?
      ensures call.ConsoleCall? <==> Console?
      ensures call.FileCall? <==> File?
      ensures call.DirCall? <==> Dir?
      ensures !call.NoCall? ==> call.level == level && call.data == data
      ensures call.ConsoleCall? ==> call.verbosity == verbosity
      ensures call.FileCall? ==> call.threshold == Rank(verbosity) && call.filePath == filePath
      ensures call.DirCall? ==> call.threshold == Rank(verbosity) && call.dirPath == dirPath
    {
      match this
      case None => NoCall
      case Console(v) => ConsoleCall(v, level, data)
      case File(v, path) => FileCall(Rank(v), path, level, data)
      case Dir(v, path) => DirCall(Rank(v), path, level, data)
    }

    /** `verbose(data)`: the call is made at Verbose, with the data unchanged, unless the logger is None. */
    function Verbose(data: string): (call: BackendCall)
      ensures call.NoCall? <==> None?
      ensures !call.NoCall? ==> call.level == LogLevel.Verbose && call.data == data
    {
      Write(LogLevel.Verbose, data)
    }

    /** `info(data)`: the call is made at Info, with the data unchanged, unless the logger is None. */
    function Info(data: string): (call: BackendCall)
      ensures call.NoCall? <==> None?
      ensures !call.NoCall? ==> call.level == LogLevel.Info && call.data == data
    {
      Write(LogLevel.Info, data)
    }

    /** `debug(data)`: the call is made at Debug, with the data unchanged, unless the logger is None. */
    function Debug(data: string): (call: BackendCall)
      ensures call.NoCall? <==> None?
      ensures !call.NoCall? ==> call.level == LogLevel.Debug && call.data == data
    {
      Write(LogLevel.Debug, data)
    }

    /** `warn(data)`: the call is made at Warn, with the data unchanged, unless the logger is None. */
    function Warn(data: string): (call: BackendCall)
      ensures call.NoCall? <==> None?
      ensures !call.NoCall? ==> call.level == LogLevel.Warn && call.data == data
    {
      Write(LogLevel.Warn, data)
    }

    /** `error(data)`: the call is made at Error, with the data unchanged, unless the logger is None. */
    function Error(data: string): (call: BackendCall)
      ensures call.NoCall? <==> None?
      ensures !call.NoCall? ==> call.level == LogLevel.Error && call.data == data
    {
      Write(LogLevel.Error, data)
    }
  }

  /**
   * A call of one backend routine with the arguments `Logger::write` passes:
   * the console gets the level, the file and directory backends get its rank as a byte.
   */
  datatype BackendCall =
    | NoCall
    | ConsoleCall(verbosity: LogLevel, level: LogLevel, data: string)
    | FileCall(threshold: u8, filePath: string, level: LogLevel, data: string)
    | DirCall(threshold: u8, dirPath: string, level: LogLevel, data: string)

  /**
   * The environment after a backend call has run (detached file writes taken
   * as immediate). The console adds the formatted record to standard output
   * iff it passes; the file backend's call replaces the files as
   * FileLogger.WriteEffect says and prints its diagnostic, if any; the
   * directory backend's call is recorded.
   */
  function Perform(o: Outputs, call: BackendCall, io: FileLogger.Io): (r: Outputs)
    ensures call.NoCall? ==> r == o
    ensures call.ConsoleCall? ==>
              r == o.(stdout := o.stdout + if Emits(call.verbosity, call.level) then [Format(call.level, call.data)] else [])
    ensures call.FileCall? ==>
              var e := FileLogger.WriteEffect(call.threshold, call.filePath, call.level, call.data, o.files, io);
              r.files == e.files && r.dirRequests == o.dirRequests &&
              r.stdout == o.stdout + if e.diagnostic.Some? then [e.diagnostic.value] else []
    ensures call.DirCall? ==>
              r == o.(dirRequests := o.dirRequests + [DirRequest(call.threshold, call.dirPath, call.level, call.data)])
  {
    match call
    case NoCall => o
    case ConsoleCall(v, level, data) =>
      var printed := ConsoleLogger.Write(v, level, data);
      if printed.Some? then
        ConsoleLogger.PrintedIsFormat(v, level, data);
        o.(stdout := o.stdout + [printed.value])
      else o
    case FileCall(t, path, level, data) =>
      FileLogger.Record(o, FileLogger.WriteEffect(t, path, level, data, o.files, io))
    case DirCall(t, path, level, data) =>
      o.(dirRequests := o.dirRequests + [DirRequest(t, path, level, data)])
  }

  /** The process-wide logger (`LOGGER`), one active destination at a time. */
  class SharedLogger {
    var logger: Logger

    /** The lazily created global starts as `Logger::default()`. */
    constructor ()
      ensures logger == Logger.Default()
    {
      logger := Logger.Default();
    }

    /** `set_verbosity`: changes the verbosity field of the active variant in place. */
    method SetVerbosity(level: LogLevel)
      modifies this
      ensures logger == old(logger).WithVerbosity(level)
    {
      match logger
      case None =>
      case Console(_) => logger := Console(level);
      case File(_, path) => logger := File(level, path);
      case Dir(_, path) => logger := Dir(level, path);
    }

    /** `*logger = new_logger`: the whole variant is replaced. */
    method Replace(newLogger: Logger)
      modifies this
      ensures logger == newLogger
    {
      logger := newLogger;
    }

    /** `write(&self, ..)`: runs the backend of the active variant; the logger itself is untouched. */
    method Write(env: Environment, level: LogLevel, data: string, io: FileLogger.Io)
      modifies env
      ensures env.State() == Perform(old(env.State()), logger.Write(level, data), io)
    {
      match logger
      case None =>
      case Console(v) =>
        var printed := ConsoleLogger.Write(v, level, data);
        if printed.Some? {
          env.Print(printed.value);
        }
      case File(v, path) =>
        FileLogger.Write(env, Rank(v), path, level, data, io);
      case Dir(v, path) =>
        env.RecordDirRequest(DirRequest(Rank(v), path, level, data));
    }

    /** `verbose(&self, data)` on the locked logger. */
    method Verbose(env: Environment, data: string, io: FileLogger.Io)
      modifies env
      ensures env.State() == Perform(old(env.State()), logger.Verbose(data), io)
    {
      Write(env, LogLevel.Verbose, data, io);
    }

    /** `info(&self, data)` on the locked logger. */
    method Info(env: Environment, data: string, io: FileLogger.Io)
      modifies env
      ensures env.State() == Perform(old(env.State()), logger.Info(data), io)
    {
      Write(env, LogLevel.Info, data, io);
    }

    /** `debug(&self, data)` on the locked logger. */
    method Debug(env: Environment, data: string, io: FileLogger.Io)
      modifies env
      ensures env.State() == Perform(old(env.State()), logger.Debug(data), io)
    {
      Write(env, LogLevel.Debug, data, io);
    }

    /** `warn(&self, data)` on the locked logger. */
    method Warn(env: Environment, data: string, io: FileLogger.Io)
      modifies env
      ensures env.State() == Perform(old(env.State()), logger.Warn(data), io)
    {
      Write(env, LogLevel.Warn, data, io);
    }

    /** `error(&self, data)` on the locked logger. */
    method Error(env: Environment, data: string, io: FileLogger.Io)
      modifies env
      ensures env.State() == Perform(old(env.State()), logger.Error(data), io)
    {
      Write(env, LogLevel.Error, data, io);
    }
  }

  /** Each of the five wrappers is `write` at its own level. */
  lemma WrappersDelegate(logger: Logger, data: string)
    ensures logger.Verbose(data) == logger.Write(LogLevel.Verbose, data)
    ensures logger.Info(data) == logger.Write(LogLevel.Info, data)
    ensures logger.Debug(data) == logger.Write(LogLevel.Debug, data)
    ensures logger.Warn(data) == logger.Write(LogLevel.Warn, data)
    ensures logger.Error(data) == logger.Write(LogLevel.Error, data)
  {
  }

  /** Setting the verbosity twice is setting it once, to the second level. */
  lemma LastVerbosityWins(logger: Logger, a: LogLevel, b: LogLevel)
    ensures logger.WithVerbosity(a).WithVerbosity(b) == logger.WithVerbosity(b)
  {
  }

  /** Setting the verbosity a logger already has changes nothing. */
  lemma WithSameVerbosityUnchanged(logger: Logger)
    requires !logger.None?
    ensures logger.WithVerbosity(logger.verbosity) == logger
  {
  }

  /** With the destination None, no write leaves any trace. */
  lemma NoneIsSilent(o: Outputs, level: LogLevel, data: string, io: FileLogger.Io)
    ensures Perform(o, Logger.None.Write(level, data), io) == o
  {
  }

  /** The console destination only ever adds the formatted record to standard output. */
  lemma ConsoleWriteEffect(o: Outputs, verbosity: LogLevel, level: LogLevel, data: string,
                           io: FileLogger.Io)
    ensures Perform(o, Console(verbosity).Write(level, data), io) ==
            o.(stdout := o.stdout + if Emits(verbosity, level) then [Format(level, data)] else [])
  {
    if Emits(verbosity, level) {
      ConsoleLogger.PrintedIsFormat(verbosity, level, data);
    }
  }

  /**
   * The file destination never prints the record: standard output gains the
   * failure diagnostic exactly when the write fails, and only its own file can change.
   */
  lemma FileWriteEffect(o: Outputs, verbosity: LogLevel, path: string, level: LogLevel, data: string,
                        io: FileLogger.Io)
    ensures var r := Perform(o, File(verbosity, path).Write(level, data), io);
            r.dirRequests == o.dirRequests && r.files.Keys == o.files.Keys &&
            (forall p :: p in o.files && p != path ==> r.files[p] == o.files[p]) &&
            r.stdout == o.stdout +
              (if Passes(Rank(verbosity), level) && FileLogger.Opens(path, o.files, io) && io.write.WriteFailed?
               then [FileLogger.Diagnostic(io.write.reason)] else []) &&
            (FileLogger.Appends(Rank(verbosity), path, level, o.files, io) ==>
               r.files[path] == o.files[path] + FileLogger.Line(level, data)) &&
            (!FileLogger.Appends(Rank(verbosity), path, level, o.files, io) ==> r.files == o.files)
  {
  }

  /**
   * A message below the verbosity of a console or file logger leaves the
   * environment exactly as it was.
   */
  lemma FilteredLeavesNoTrace(o: Outputs, logger: Logger, level: LogLevel, data: string, io: FileLogger.Io)
    requires logger.Console? || logger.File?
    requires !Emits(logger.verbosity, level)
    ensures Perform(o, logger.Write(level, data), io) == o
  {
  }

  /** Under any console or file logger, an Error record is delivered when the write itself succeeds. */
  lemma ErrorDelivered(o: Outputs, logger: Logger, data: string, io: FileLogger.Io)
    requires logger.Console? || (logger.File? && logger.filePath in o.files && io == FileLogger.Io(true, FileLogger.Written))
    ensures var r := Perform(o, logger.Write(LogLevel.Error, data), io);
            if logger.Console? then r.stdout == o.stdout + [Format(LogLevel.Error, data)]
            else r.files[logger.filePath] == o.files[logger.filePath] + FileLogger.Line(LogLevel.Error, data)
  {
    ErrorAlwaysEmitted(logger.verbosity);
    if logger.Console? {
      ConsoleWriteEffect(o, logger.verbosity, LogLevel.Error, data, io);
    }
  }
}
