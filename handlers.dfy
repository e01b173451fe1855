/**
 * The remote-call handlers (src/main.rs): each validates its argument map,
 * silently returns Null on a missing or wrongly typed argument, and otherwise
 * reconfigures or writes through the shared logger. Filesystem probes are
 * parameters, as is each detached file write's outcome.
 */
module Handlers {
  import opened Wrappers
  import opened Levels
  import opened LogLine
  import opened Host
  import opened Logging
  import FileLogger

  type i64 = x: int | -0x8000_0000_0000_0000 <= x < 0x8000_0000_0000_0000
  type u64 = x: int | 0 <= x < 0x1_0000_0000_0000_0000

  /** A number as the transport delivers it. */
  datatype Number = Decimal(decimal: real) | SignedInteger(signed: i64) | UnsignedInteger(unsigned: u64)

  /** An argument value as the transport delivers it. */
  datatype Value =
    | Null
    | Bool(boolean: bool)
    | Number(number: Number)
    | String(text: string)
    | Array(items: seq<Value>)
    | Object(fields: map<string, Value>)

  type Args = map<string, Value>

  /**
   * `num as u8`: integers keep their value modulo 256 (two's complement for
   * negative ones); decimals are truncated toward zero and clamped to 0..255.
   */
  function AsByte(n: Number): (b: u8)
    ensures n.SignedInteger? ==> (n.signed - b) % 256 == 0
    ensures n.UnsignedInteger? ==> (n.unsigned - b) % 256 == 0
    ensures n.Decimal? && n.decimal <= 0.0 ==> b == 0
    ensures n.Decimal? && n.decimal >= 255.0 ==> b == 255
    ensures n.Decimal? && 0.0 <= n.decimal < 256.0 ==> b as real <= n.decimal < b as real + 1.0
  {
    match n
    case Decimal(d) => if d <= 0.0 then 0 else if d >= 255.0 then 255 else d.Floor
    case SignedInteger(i) => i % 256
    case UnsignedInteger(u) => u % 256
  }

  /** The byte-to-level table both handlers use: a byte that is a rank names that level, any other byte Verbose. */
  function LevelOfByte(b: u8): (level: LogLevel)
    ensures 1 <= b <= 5 ==> Rank(level) == b
    ensures !(1 <= b <= 5) ==> level == Verbose
  {
    match b
    case 5 => Error
    case 4 => Warn
    case 3 => Debug
    case 2 => Info
    case _ => Verbose
  }

  /** The argument `key`, when present and a number. */
  function NumberArg(args: Args, key: string): (r: Option<Number>)
    ensures r.Some? <==> key in args && args[key].Number?
    ensures r.Some? ==> args[key] == Number(r.value)
  {
    if key in args && args[key].Number? then Some(args[key].number) else Option.None
  }

  /** The argument `key`, when present and a string. */
  function StringArg(args: Args, key: string): (r: Option<string>)
    ensures r.Some? <==> key in args && args[key].String?
    ensures r.Some? ==> args[key] == String(r.value)
  {
    if key in args && args[key].String? then Some(args[key].text) else Option.None
  }

  /** The level `setVerbosity` applies, or None when the call is ignored. */
  function VerbosityArg(args: Args): (r: Option<LogLevel>)
    ensures r.None? <==> ("verbosity" !in args || !args["verbosity"].Number?)
    ensures r.Some? ==> r.value == LevelOfByte(AsByte(args["verbosity"].number))
  {
    match NumberArg(args, "verbosity")
    case None => Option.None
    case Some(n) => Some(LevelOfByte(AsByte(n)))
  }

  /** The level `setLogDestination` configures: a missing or non-numeric verbosity stands for the number 1. */
  function DestinationVerbosity(args: Args): (level: LogLevel)
    ensures ("verbosity" !in args || !args["verbosity"].Number?) ==> level == Verbose
    ensures VerbosityArg(args).Some? ==> level == VerbosityArg(args).value
  {
    var v := if "verbosity" in args && args["verbosity"].Number? then args["verbosity"]
             else Number(UnsignedInteger(1));
    LevelOfByte(AsByte(v.number))
  }

  /**
   * The destination chosen for `destination`, by priority: an existing file,
   * then an existing directory, then the literal "none", then the console.
   */
  function SelectLogger(destination: string, verbosity: LogLevel,
                        isFile: string -> bool, isDir: string -> bool): (r: Logger)
    ensures r.File? <==> isFile(destination)
    ensures r.Dir? <==> !isFile(destination) && isDir(destination)
    ensures r.None? <==> !isFile(destination) && !isDir(destination) && destination == "none"
    ensures !r.None? ==> r.verbosity == verbosity
    ensures r.File? ==> r.filePath == destination
    ensures r.Dir? ==> r.dirPath == destination
  {
    if isFile(destination) then File(verbosity, destination)
    else if isDir(destination) then Dir(verbosity, destination)
    else if destination == "none" then Logger.None
    else Console(verbosity)
  }

  /** The logger after `setVerbosity(args)`: unchanged when ignored, else only the verbosity is changed. */
  function SetVerbosityStep(logger: Logger, args: Args): (r: Logger)
    ensures VerbosityArg(args).None? ==> r == logger
    ensures logger.SameDestination(r)
    ensures VerbosityArg(args).Some? && !r.None? ==> r.verbosity == VerbosityArg(args).value
  {
    match VerbosityArg(args)
    case None => logger
    case Some(level) => logger.WithVerbosity(level)
  }

  /** The logger after `setLogDestination(args)`: unchanged when ignored, else the selected one. */
  function SetLogDestinationStep(logger: Logger, args: Args, isFile: string -> bool, isDir: string -> bool): (r: Logger)
    ensures StringArg(args, "destination").None? ==> r == logger
    ensures StringArg(args, "destination").Some? ==>
              r == SelectLogger(args["destination"].text, DestinationVerbosity(args), isFile, isDir)
  {
    match StringArg(args, "destination")
    case None => logger
    case Some(destination) => SelectLogger(destination, DestinationVerbosity(args), isFile, isDir)
  }

  /** The environment after a logging call at `level`: unchanged when ignored, else the logger's write. */
  function LogStep(logger: Logger, level: LogLevel, args: Args, o: Outputs, io: FileLogger.Io): (r: Outputs)
    ensures StringArg(args, "data").None? ==> r == o
    ensures StringArg(args, "data").Some? ==> r == Perform(o, logger.Write(level, args["data"].text), io)
  {
    match StringArg(args, "data")
    case None => o
    case Some(data) => Perform(o, logger.Write(level, data), io)
  }

  /** `set_verbosity`. */
  method SetVerbosity(shared: SharedLogger, args: Args) returns (r: Value)
    modifies shared
    ensures r == Null
    ensures shared.logger == SetVerbosityStep(old(shared.logger), args)
  {
    if "verbosity" !in args {
      return Null;
    }
    var verbosity := args["verbosity"];
    if !verbosity.Number? {
      return Null;
    }
    var b := AsByte(verbosity.number);
    shared.SetVerbosity(LevelOfByte(b));
    return Null;
  }

  /** `set_log_destination`. */
  method SetLogDestination(shared: SharedLogger, args: Args, isFile: string -> bool, isDir: string -> bool)
    returns (r: Value)
    modifies shared
    ensures r == Null
    ensures shared.logger == SetLogDestinationStep(old(shared.logger), args, isFile, isDir)
  {
    if "destination" !in args {
      return Null;
    }
    var destination := args["destination"];
    if !destination.String? {
      return Null;
    }
    var verbosity := if "verbosity" in args then args["verbosity"] else Number(UnsignedInteger(1));
    if !verbosity.Number? {
      verbosity := Number(UnsignedInteger(1));
    }
    var level := LevelOfByte(AsByte(verbosity.number));
    var newLogger: Logger;
    if isFile(destination.text) {
      newLogger := File(level, destination.text);
    } else if isDir(destination.text) {
      newLogger := Dir(level, destination.text);
    } else if destination.text == "none" {
      newLogger := Logger.None;
    } else {
      newLogger := Console(level);
    }
    shared.Replace(newLogger);
    return Null;
  }

  /** `verbose_log`. */
  method VerboseLog(shared: SharedLogger, env: Environment, args: Args, io: FileLogger.Io) returns (r: Value)
    modifies env
    ensures r == Null
    ensures env.State() == LogStep(shared.logger, LogLevel.Verbose, args, old(env.State()), io)
  {
    if "data" !in args {
      return Null;
    }
    var data := args["data"];
    if !data.String? {
      return Null;
    }
    shared.Verbose(env, data.text, io);
    return Null;
  }

  /** `info_log`. */
  method InfoLog(shared: SharedLogger, env: Environment, args: Args, io: FileLogger.Io) returns (r: Value)
    modifies env
    ensures r == Null
    ensures env.State() == LogStep(shared.logger, LogLevel.Info, args, old(env.State()), io)
  {
    if "data" !in args {
      return Null;
    }
    var data := args["data"];
    if !data.String? {
      return Null;
    }
    shared.Info(env, data.text, io);
    return Null;
  }

  /** `debug_log`. */
  method DebugLog(shared: SharedLogger, env: Environment, args: Args, io: FileLogger.Io) returns (r: Value)
    modifies env
    ensures r == Null
    ensures env.State() == LogStep(shared.logger, LogLevel.Debug, args, old(env.State()), io)
  {
    if "data" !in args {
      return Null;
    }
    var data := args["data"];
    if !data.String? {
      return Null;
    }
    shared.Debug(env, data.text, io);
    return Null;
  }

  /** `warn_log`. */
  method WarnLog(shared: SharedLogger, env: Environment, args: Args, io: FileLogger.Io) returns (r: Value)
    modifies env
    ensures r == Null
    ensures env.State() == LogStep(shared.logger, LogLevel.Warn, args, old(env.State()), io)
  {
    if "data" !in args {
      return Null;
    }
    var data := args["data"];
    if !data.String? {
      return Null;
    }
    shared.Warn(env, data.text, io);
    return Null;
  }

  /** `error_log`. */
  method ErrorLog(shared: SharedLogger, env: Environment, args: Args, io: FileLogger.Io) returns (r: Value)
    modifies env
    ensures r == Null
    ensures env.State() == LogStep(shared.logger, LogLevel.Error, args, old(env.State()), io)
  {
    if "data" !in args {
      return Null;
    }
    var data := args["data"];
    if !data.String? {
      return Null;
    }
    shared.Error(env, data.text, io);
    return Null;
  }

  /** The table inverts Rank: sending a level's rank selects that level. */
  lemma LevelOfRank(level: LogLevel)
    ensures LevelOfByte(Rank(level)) == level
  {
    RankInjective(LevelOfByte(Rank(level)), level);
  }

  /** For integers the level depends only on the value modulo 256. */
  lemma LevelModulo256(a: Number, b: Number)
    requires (a.SignedInteger? || a.UnsignedInteger?) && (b.SignedInteger? || b.UnsignedInteger?)
    requires (IntValue(a) - IntValue(b)) % 256 == 0
    ensures LevelOfByte(AsByte(a)) == LevelOfByte(AsByte(b))
  {
    var x, y := IntValue(a), IntValue(b);
    assert AsByte(a) == x % 256 && AsByte(b) == y % 256;
    assert x == (x - y) + y;
    ModuloShift(x - y, y);
  }

  /** The integer an integral number carries. */
  function IntValue(n: Number): int
    requires n.SignedInteger? || n.UnsignedInteger?
  {
    if n.SignedInteger? then n.signed else n.unsigned
  }

  /** Adding a multiple of 256 does not change the remainder. */
  lemma ModuloShift(d: int, y: int)
    requires d % 256 == 0
    ensures (d + y) % 256 == y % 256
  {
    var q := d / 256;
    assert d == 256 * q;
  }

  /** 261 wraps around to 5, and so selects Error; -251 does too. */
  lemma WrapAroundExamples()
    ensures LevelOfByte(AsByte(UnsignedInteger(261))) == Error
    ensures LevelOfByte(AsByte(SignedInteger(-251))) == Error
    ensures LevelOfByte(AsByte(UnsignedInteger(256))) == Verbose
  {
  }

  /** Once a destination is given, the new logger does not depend on the old one. */
  lemma DestinationReplacesWholesale(a: Logger, b: Logger, args: Args, isFile: string -> bool, isDir: string -> bool)
    requires StringArg(args, "destination").Some?
    ensures SetLogDestinationStep(a, args, isFile, isDir) == SetLogDestinationStep(b, args, isFile, isDir)
  {
  }

  /** After `setLogDestination("none")` (naming no file or directory) no logging call has any effect. */
  lemma NoneDestinationSilences(logger: Logger, args: Args, isFile: string -> bool,
                                isDir: string -> bool, level: LogLevel, logArgs: Args,
                                o: Outputs, io: FileLogger.Io)
    requires "destination" in args && args["destination"] == String("none")
    requires !isFile("none") && !isDir("none")
    ensures LogStep(SetLogDestinationStep(logger, args, isFile, isDir), level, logArgs, o, io) == o
  {
    var after := SetLogDestinationStep(logger, args, isFile, isDir);
    assert after == Logger.None;
    if StringArg(logArgs, "data").Some? {
      NoneIsSilent(o, level, StringArg(logArgs, "data").value, io);
    }
  }

  /**
   * A logging call whose data is a string, on an existing file: the record is
   * appended when it passes and the write succeeds, and nothing changes when
   * it is filtered out.
   */
  lemma FileLogStep(verbosity: LogLevel, path: string, level: LogLevel, args: Args, o: Outputs)
    requires StringArg(args, "data").Some? && path in o.files
    ensures var r := LogStep(File(verbosity, path), level, args, o, FileLogger.Io(true, FileLogger.Written));
            (Emits(verbosity, level) ==>
               r == o.(files := o.files[path := o.files[path] + FileLogger.Line(level, args["data"].text)])) &&
            (!Emits(verbosity, level) ==> r == o)
  {
    FileWriteEffect(o, verbosity, path, level, args["data"].text, FileLogger.Io(true, FileLogger.Written));
  }

  /**
   * A logging call whose data is a string, on the console: the formatted
   * record is printed when it passes, and nothing changes when it is filtered out.
   */
  lemma ConsoleLogStep(verbosity: LogLevel, level: LogLevel, args: Args, o: Outputs, io: FileLogger.Io)
    requires StringArg(args, "data").Some?
    ensures var r := LogStep(Console(verbosity), level, args, o, io);
            (Emits(verbosity, level) ==> r == o.(stdout := o.stdout + [Format(level, args["data"].text)])) &&
            (!Emits(verbosity, level) ==> r == o)
  {
  }

  /**
   * `setLogDestination(<existing file>, 3)`, then `warn("x")` and `debug("y")`:
   * both lines reach the file, since Debug sits exactly at the threshold.
   */
  lemma FileScenario(logger: Logger, path: string, isFile: string -> bool, isDir: string -> bool, o: Outputs)
    requires isFile(path) && path in o.files
    ensures var configured := SetLogDestinationStep(logger,
              map["destination" := String(path), "verbosity" := Number(UnsignedInteger(3))], isFile, isDir);
            var ok := FileLogger.Io(true, FileLogger.Written);
            var o1 := LogStep(configured, Warn, map["data" := String("x")], o, ok);
            var o2 := LogStep(configured, Debug, map["data" := String("y")], o1, ok);
            configured == File(Debug, path) &&
            o2.files[path] == o.files[path] + "[WARN]: x\n" + "[DEBUG]: y\n" &&
            o2.stdout == o.stdout
  {
    var args := map["destination" := String(path), "verbosity" := Number(UnsignedInteger(3))];
    assert StringArg(args, "destination") == Some(path);
    assert DestinationVerbosity(args) == Debug;
    var ok := FileLogger.Io(true, FileLogger.Written);
    var x, y := map["data" := String("x")], map["data" := String("y")];
    assert StringArg(x, "data") == Some("x") && StringArg(y, "data") == Some("y");
    assert Emits(Debug, Warn) && Emits(Debug, Debug);
    FileLogStep(Debug, path, Warn, x, o);
    var o1 := LogStep(File(Debug, path), Warn, x, o, ok);
    FileLogStep(Debug, path, Debug, y, o1);
    ScenarioLines();
  }

  /** The two lines of FileScenario, spelled out. */
  lemma ScenarioLines()
    ensures FileLogger.Line(Warn, "x") == "[WARN]: x\n"
    ensures FileLogger.Line(Debug, "y") == "[DEBUG]: y\n"
  {
  }

  /**
   * Switching from the console to a file mid-stream: the record logged before
   * the switch is printed and the file is untouched; the one logged after
   * goes to the file only.
   */
  lemma SwitchConsoleToFile(verbosity: LogLevel, path: string, isFile: string -> bool, isDir: string -> bool,
                            before: string, after: string, o: Outputs)
    requires isFile(path) && path in o.files
    ensures var ok := FileLogger.Io(true, FileLogger.Written);
            var o1 := LogStep(Console(verbosity), Error, map["data" := String(before)], o, ok);
            var switched := SetLogDestinationStep(Console(verbosity), map["destination" := String(path)], isFile, isDir);
            var o2 := LogStep(switched, Error, map["data" := String(after)], o1, ok);
            o2.stdout == o.stdout + [Format(Error, before)] &&
            o2.files == o.files[path := o.files[path] + FileLogger.Line(Error, after)]
  {
    var ok := FileLogger.Io(true, FileLogger.Written);
    var b, c := map["data" := String(before)], map["data" := String(after)];
    assert StringArg(b, "data") == Some(before) && StringArg(c, "data") == Some(after);
    ErrorAlwaysEmitted(verbosity);
    ErrorAlwaysEmitted(Verbose);
    ConsoleLogStep(verbosity, Error, b, o, ok);
    var o1 := LogStep(Console(verbosity), Error, b, o, ok);
    var args := map["destination" := String(path)];
    assert StringArg(args, "destination") == Some(path);
    assert SetLogDestinationStep(Console(verbosity), args, isFile, isDir) == File(Verbose, path);
    FileLogStep(Verbose, path, Error, c, o1);
  }

  /**
   * A session from process start, through the handlers: the default console
   * prints an info line; after setVerbosity(4) a further info line is dropped
   * and a warning still gets through.
   */
  method ConsoleSession(up: string, dropped: string, warning: string) returns (printed: seq<string>)
    ensures printed == [Format(Info, up), Format(Warn, warning)]
  {
    var shared := new SharedLogger();
    var env := new Environment(map[]);
    var io := FileLogger.Io(false, FileLogger.Written);
    var first, second, third := map["data" := String(up)], map["data" := String(dropped)], map["data" := String(warning)];
    var four := map["verbosity" := Number(UnsignedInteger(4))];
    ConsoleSessionSteps(up, dropped, warning, io);
    var r := InfoLog(shared, env, first, io);
    r := SetVerbosity(shared, four);
    r := InfoLog(shared, env, second, io);
    r := WarnLog(shared, env, third, io);
    printed := env.stdout;
  }

  /** The steps of ConsoleSession, on the model's values. */
  lemma ConsoleSessionSteps(up: string, dropped: string, warning: string, io: FileLogger.Io)
    ensures var o1 := LogStep(Logger.Default(), Info, map["data" := String(up)], Outputs([], map[], []), io);
            var warn := SetVerbosityStep(Logger.Default(), map["verbosity" := Number(UnsignedInteger(4))]);
            var o2 := LogStep(warn, Info, map["data" := String(dropped)], o1, io);
            var o3 := LogStep(warn, Warn, map["data" := String(warning)], o2, io);
            o3.stdout == [Format(Info, up), Format(Warn, warning)]
  {
    var first, second, third := map["data" := String(up)], map["data" := String(dropped)], map["data" := String(warning)];
    var o0 := Outputs([], map[], []);
    ConsoleLogStep(Verbose, Info, first, o0, io);
    var o1 := LogStep(Console(Verbose), Info, first, o0, io);
    VerbosityFourIsWarn();
    assert !Emits(Warn, Info);
    ConsoleLogStep(Warn, Info, second, o1, io);
    ConsoleLogStep(Warn, Warn, third, o1, io);
  }

  /** `setVerbosity` with the number 4 turns the default console logger into a Warn console logger. */
  lemma VerbosityFourIsWarn()
    ensures SetVerbosityStep(Logger.Default(), map["verbosity" := Number(UnsignedInteger(4))]) == Console(Warn)
  {
    assert VerbosityArg(map["verbosity" := Number(UnsignedInteger(4))]) == Some(Warn);
  }
}
