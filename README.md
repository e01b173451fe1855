# A verified model of the bytesonus logger core

The logger is a small service that other processes call remotely. It keeps one
process-wide *logger*, which is exactly one of four destinations: `None`
(discard), `Console`, `File` (append to one existing file) or `Dir` (hand off to
a directory backend). Every destination except `None` carries a *verbosity*, a
level of the five-step scale Verbose < Info < Debug < Warn < Error (ranks 1..5).
On `Console` and `File`, a message at a level is emitted iff the verbosity's
rank is at most the level's rank; `Dir` passes the rank on to the directory
backend, whose filtering is not modelled. The shown line is `[NAME]: data`; the file backend adds a newline and
appends it. The remote calls `setVerbosity`, `setLogDestination`, `verbose`,
`info`, `debug`, `warn` and `error` check their argument map, ignore bad
arguments silently, and always return `Null`.

Modules follow the source files:

- `Levels` (`src/logger/mod.rs`, `LogLevel`): ranks, names and the threshold rule.
- `LogLine`: the `[NAME]: data` line both backends write, plus a reader `Parse`
  that is its proved inverse.
- `ConsoleLogger` (`src/logger/console_logger.rs`): a function returning the printed line, if any.
- `FileLogger` (`src/logger/file_logger.rs`): a function giving the effect on a
  file-contents map, and a method that performs it on the environment.
- `Host`: the environment as a class, holding standard output, the files on
  disk, and the calls handed to the directory backend.
- `Logging` (`src/logger/mod.rs`, `Logger`): the destination datatype, the
  dispatch of `write`, and class `SharedLogger`, the global `LOGGER`. Its
  `SetVerbosity` changes the verbosity in place and its `Replace` swaps the
  whole variant.
- `Handlers` (`src/main.rs`): argument decoding, the `as u8` cast, the
  byte-to-level table, destination selection, and the seven handlers as
  methods. Each method is tied to a pure step function (`SetVerbosityStep`,
  `SetLogDestinationStep`, `LogStep`), and the multi-call scenarios are lemmas
  about those functions.

Inputs the core cannot see are parameters. The filesystem probes `is_file` and
`is_dir` are `isFile`/`isDir: string -> bool`. The outcome of one detached file
write is `FileLogger.Io`: whether the open succeeded, and whether the write
succeeded or failed with a message. Opening uses append mode without create,
so it also fails when the path is not in the file map.

Notes on the source:
- A message logged exactly at the configured rank is emitted: both backends
  compare with `<=` (src/logger/console_logger.rs:8, src/logger/file_logger.rs:8).
- A write on the `None` destination makes no call and does no rank check
  (src/logger/mod.rs:95).
- In `setLogDestination`, a missing or non-numeric `verbosity` is replaced by
  `UnsignedInteger(1)` before the cast and the table lookup, which gives
  Verbose (src/main.rs:84-90).

## Model

| member | source | states |
|---|---|---|
| Levels.Rank | src/logger/mod.rs:12-18 | a level's rank is in 1..5 and is its one-based position on the ascending scale Verbose, Info, Debug, Warn, Error |
| Levels.Name | src/logger/mod.rs:21-29 | every canonical name is a non-empty run of upper-case letters |
| Levels.LevelNamed | src/logger/mod.rs:21-29 | recognising a name yields a level whose canonical name is exactly that text |
| Levels.RankStrictlyIncreasing | src/logger/mod.rs:12-18 | ranks strictly increase along the scale |
| Levels.RankInjective | src/logger/mod.rs:12-18 | two levels have the same rank iff they are the same level |
| Levels.NameRoundTrip | src/logger/mod.rs:21-29 | every level's name is recognised as that level |
| Levels.NamesDistinct | src/logger/mod.rs:21-29 | two levels have the same name iff they are the same level |
| Levels.Passes | src/logger/file_logger.rs:6-8 | a threshold of rank 1 or below lets every level through, and one above 5 lets none through |
| Levels.Emits | src/logger/console_logger.rs:6-8 | a Verbose logger emits every level, and an Error message is emitted under every verbosity |
| Levels.EmitsMonotone | src/logger/console_logger.rs:6-8 | if a message passes a threshold, any message of higher or equal rank passes too |
| Levels.EmitsAtThreshold | src/logger/console_logger.rs:6-8 | the boundary is inclusive: a message at exactly the configured level is emitted |
| Levels.ErrorAlwaysEmitted | src/logger/console_logger.rs:6-8 | an Error message passes every configured level |
| Levels.OnlyErrorAtError | src/logger/console_logger.rs:6-8 | configured at Error, a backend lets through Error and nothing else |
| Levels.EmittedSuffix | src/logger/console_logger.rs:6-8 | the levels let through are exactly the suffix of the scale starting at the configured level |
| LogLine.Tag | src/logger/console_logger.rs:9-16 | the tag is `[`, the level's name, then `]: ` |
| LogLine.Format | src/logger/console_logger.rs:16 | a line is the tag followed by the unchanged payload |
| LogLine.ParseFormat | src/logger/console_logger.rs:16 | every formatted line reads back as the level and payload it was made from |
| LogLine.FormatParse | src/logger/console_logger.rs:16 | every line that reads back as a record is exactly that record's formatted line |
| LogLine.FormatInjective | src/logger/console_logger.rs:16 | distinct (level, payload) records never produce the same line |
| ConsoleLogger.Write | src/logger/console_logger.rs:5-18 | a line is printed iff rank(verbosity) <= rank(level); the printed line begins with the level's tag and reads back as (level, data) |
| ConsoleLogger.PrintedIsFormat | src/logger/console_logger.rs:9-16 | whatever is printed equals the formatted record |
| ConsoleLogger.ErrorAlwaysPrinted | src/logger/console_logger.rs:6-16 | an Error message is printed under every verbosity |
| Host.Environment.Print | src/logger/console_logger.rs:16 | printing adds one line to standard output and changes nothing else |
| Host.Environment.RecordDirRequest | src/logger/mod.rs:114-119 | a directory-backend call is recorded with its arguments and nothing else changes |
| FileLogger.Line | src/logger/file_logger.rs:16 | the appended text is the console line followed by one newline |
| FileLogger.Diagnostic | src/logger/file_logger.rs:18-20 | the printed diagnostic ends with the write failure's own text, after a non-empty prefix |
| FileLogger.DiskChangesIffAppends | src/logger/file_logger.rs:8-17 | the file contents change exactly when Appends holds: the threshold passes, Opens holds (the file exists and the open succeeds) and the write succeeds |
| FileLogger.WriteEffect | src/logger/file_logger.rs:4-23 | the set of files never changes and other files keep their contents; the line is appended iff the threshold passes, the open succeeds and the write succeeds, and otherwise nothing changes on disk; a diagnostic `Unable to write to file: ...` appears iff the open succeeded and the write failed |
| FileLogger.Write | src/logger/file_logger.rs:4-23 | the step-by-step backend (threshold, open, write, report) leaves the environment exactly as WriteEffect says |
| FileLogger.BelowThresholdNoEffect | src/logger/file_logger.rs:6-8 | below the threshold nothing is written and nothing printed |
| FileLogger.OpenFailureSilent | src/logger/file_logger.rs:10-13 | when the open fails, nothing is written and nothing printed |
| FileLogger.AppendKeepsPrefix | src/logger/file_logger.rs:10-16 | the old contents of the file are a prefix of the new ones |
| FileLogger.AppendedLineReadsBack | src/logger/file_logger.rs:14-17 | contents made of the old contents followed by the appended line, which is what WriteEffect leaves after a successful write, end with a newline, and the text added before it reads back as (level, data) |
| FileLogger.TwoWritesAppendInOrder | src/logger/file_logger.rs:5-17 | two successful writes leave both lines after the old contents, in the order they were issued |
| Logging.Logger.Default | src/logger/mod.rs:48-52 | the default logger is the console with a verbosity that lets every level through |
| Logging.Logger.Verbose | src/logger/mod.rs:54-56 | verbose(data) makes a call at Verbose with the data unchanged, and makes none exactly when the logger is None |
| Logging.Logger.Info | src/logger/mod.rs:58-60 | info(data) makes a call at Info with the data unchanged, and makes none exactly when the logger is None |
| Logging.Logger.Debug | src/logger/mod.rs:62-64 | debug(data) makes a call at Debug with the data unchanged, and makes none exactly when the logger is None |
| Logging.Logger.Warn | src/logger/mod.rs:66-68 | warn(data) makes a call at Warn with the data unchanged, and makes none exactly when the logger is None |
| Logging.Logger.Error | src/logger/mod.rs:70-72 | error(data) makes a call at Error with the data unchanged, and makes none exactly when the logger is None |
| Logging.Logger.WithVerbosity | src/logger/mod.rs:74-91 | set_verbosity keeps the variant and the path, and sets the verbosity of Console, File and Dir to the given level; None stays None |
| Logging.Logger.Write | src/logger/mod.rs:93-122 | write makes no call for None and calls the backend matching the variant, passing the stored verbosity (as its rank for File and Dir), the stored path, the level and the data unchanged |
| Logging.Perform | src/logger/mod.rs:93-122 | no call leaves the environment unchanged; a console call appends the formatted record (src/logger/console_logger.rs:16) to standard output iff it passes the threshold; a file call replaces the files by FileLogger.WriteEffect of its arguments (src/logger/file_logger.rs:10-20), appends WriteEffect's diagnostic, if any, to standard output, and leaves the directory calls unchanged; a directory call is recorded with its arguments |
| Logging.SharedLogger.constructor | src/logger/mod.rs:7-9 | the global logger starts as the default logger |
| Logging.SharedLogger.SetVerbosity | src/logger/mod.rs:74-91 | the in-place update leaves the logger equal to WithVerbosity of the old one |
| Logging.SharedLogger.Replace | src/main.rs:121-122 | the whole variant is replaced by the new logger |
| Logging.SharedLogger.Write | src/logger/mod.rs:93-122 | running the active backend changes the environment exactly as performing the dispatched call does; the logger itself is not modified |
| Logging.SharedLogger.Verbose | src/logger/mod.rs:54-56 | calling verbose on the global logger changes the environment exactly as performing its Verbose call does |
| Logging.SharedLogger.Info | src/logger/mod.rs:58-60 | calling info on the global logger changes the environment exactly as performing its Info call does |
| Logging.SharedLogger.Debug | src/logger/mod.rs:62-64 | calling debug on the global logger changes the environment exactly as performing its Debug call does |
| Logging.SharedLogger.Warn | src/logger/mod.rs:66-68 | calling warn on the global logger changes the environment exactly as performing its Warn call does |
| Logging.SharedLogger.Error | src/logger/mod.rs:70-72 | calling error on the global logger changes the environment exactly as performing its Error call does |
| Logging.WrappersDelegate | src/logger/mod.rs:54-72 | each of verbose, info, debug, warn and error is write at its own level |
| Logging.LastVerbosityWins | src/logger/mod.rs:74-91 | setting the verbosity twice equals setting it once to the second level |
| Logging.WithSameVerbosityUnchanged | src/logger/mod.rs:74-91 | setting the verbosity a logger already has changes nothing |
| Logging.NoneIsSilent | src/logger/mod.rs:95 | a write on None leaves the environment unchanged |
| Logging.ConsoleWriteEffect | src/logger/mod.rs:96-98 | a write on Console adds the formatted record to standard output iff it passes the threshold, and changes nothing else |
| Logging.FileWriteEffect | src/logger/mod.rs:99-109 | a write on File changes only its own file and never records a directory call; the record line is appended iff the threshold passes, the file opens and the write succeeds; standard output gains exactly the diagnostic when the threshold passes, the file opens and the write fails, and is otherwise unchanged |
| Logging.FilteredLeavesNoTrace | src/logger/mod.rs:93-109 | a message below the verbosity of a console or file logger leaves the environment unchanged |
| Logging.ErrorDelivered | src/logger/mod.rs:93-109 | an Error message always reaches the console, or the file when the write succeeds |
| Handlers.AsByte | src/main.rs:56-60 | an integer is cast to the byte congruent to it modulo 256; a decimal is truncated toward zero and clamped to 0..255 |
| Handlers.LevelOfByte | src/main.rs:62-68 | a byte 1..5 selects the level of that rank (5 Error, 4 Warn, 3 Debug, 2 Info, 1 Verbose), and every other byte selects Verbose |
| Handlers.NumberArg | src/main.rs:48-55 | a number is found iff the key is present and holds a number, and it is that number |
| Handlers.StringArg | src/main.rs:74-82 | a string is found iff the key is present and holds a string, and it is that string |
| Handlers.VerbosityArg | src/main.rs:47-68 | setVerbosity is ignored exactly when `verbosity` is absent or not a number; otherwise the level is the table entry for the number cast to a byte |
| Handlers.DestinationVerbosity | src/main.rs:83-102 | a missing or non-numeric verbosity gives Verbose; a numeric one gives the same level setVerbosity would |
| Handlers.SelectLogger | src/main.rs:103-119 | File iff the path is a file; Dir iff it is a directory and not a file; None iff neither and the text is "none"; Console otherwise; the verbosity and path are the given ones |
| Handlers.SetVerbosityStep | src/main.rs:47-71 | with a bad argument the logger is unchanged; otherwise the destination is kept and the verbosity becomes the decoded level |
| Handlers.SetLogDestinationStep | src/main.rs:73-125 | with a missing or non-string destination the logger is unchanged; otherwise it is the selected logger |
| Handlers.LogStep | src/main.rs:127-141 | a logging call with missing or non-string data changes nothing; with string data it performs the logger's write of that text at the given level |
| Handlers.SetVerbosity | src/main.rs:47-71 | returns Null, and the shared logger becomes SetVerbosityStep of the old one |
| Handlers.SetLogDestination | src/main.rs:73-125 | returns Null, and the shared logger becomes SetLogDestinationStep of the old one |
| Handlers.VerboseLog | src/main.rs:127-141 | returns Null, calls the global logger's verbose wrapper with the string data, and so performs LogStep at Verbose |
| Handlers.InfoLog | src/main.rs:143-157 | returns Null, calls the global logger's info wrapper with the string data, and so performs LogStep at Info |
| Handlers.DebugLog | src/main.rs:159-173 | returns Null, calls the global logger's debug wrapper with the string data, and so performs LogStep at Debug |
| Handlers.WarnLog | src/main.rs:175-189 | returns Null, calls the global logger's warn wrapper with the string data, and so performs LogStep at Warn |
| Handlers.ErrorLog | src/main.rs:191-205 | returns Null, calls the global logger's error wrapper with the string data, and so performs LogStep at Error |
| Handlers.LevelOfRank | src/main.rs:62-68 | the table inverts Rank: sending a level's rank selects that level |
| Handlers.LevelModulo256 | src/main.rs:56-68 | for integer arguments the selected level depends only on the value modulo 256 |
| Handlers.WrapAroundExamples | src/main.rs:58-68 | 261 and -251 select Error, and 256 selects Verbose |
| Handlers.DestinationReplacesWholesale | src/main.rs:105-122 | once a destination string is given, the new logger does not depend on the old one |
| Handlers.NoneDestinationSilences | src/main.rs:115-116 | after setLogDestination("none"), when "none" names no file or directory, no logging call has any effect |
| Handlers.FileLogStep | src/main.rs:127-141 | a logging call with any string data, on an existing file whose write succeeds, appends the record line when it passes the threshold and changes nothing when it does not |
| Handlers.ConsoleLogStep | src/main.rs:127-141 | a logging call with any string data, on the console, prints the formatted record when it passes the threshold and changes nothing when it does not |
| Handlers.FileScenario | src/main.rs:83-122 | setLogDestination(file, 3), then warn "x" and debug "y", appends both lines to the file and prints nothing |
| Handlers.ScenarioLines | src/logger/file_logger.rs:16 | the lines for warn "x" and debug "y" are `[WARN]: x\n` and `[DEBUG]: y\n` |
| Handlers.SwitchConsoleToFile | src/main.rs:105-122 | an Error record logged before switching from console to file is printed only; an Error record logged after goes to the file only |
| Handlers.ConsoleSessionSteps | src/main.rs:47-71 | from the default logger: an info line is printed; after setVerbosity(4) another info line is dropped and a warning is printed |
| Handlers.VerbosityFourIsWarn | src/main.rs:47-71 | setVerbosity(4) turns the default console logger into a console logger at Warn |
| Handlers.ConsoleSession | src/main.rs:127-157 | the same session through the handler methods on the global logger prints exactly the first info line and the warning |

## Left out

- Locking: the `Mutex` and the `lazy_static` global are one `SharedLogger` object. Calls are taken one at a time, so lock contention and atomicity are not modelled.
- Detached writes: `task::spawn` is not modelled. Each file write is an append that happens at once, so reordering or interleaving of concurrent writes is not modelled.
- Colouring: the ANSI colours on the console tag are not modelled. Only the tag text is.
- Directory backend: its source (`src/logger/dir_logger.rs`) is not part of this model. A `Dir` write is only recorded with the arguments it receives; its filtering, file choice and output are not modelled.
- Filesystem probes: `is_file`/`is_dir` are input predicates. Resolving relative paths against the working directory is not modelled.
- Text encoding: lines are sequences of characters. The UTF-8 bytes written to disk are not modelled.
- Handlers.AsByte: a decimal is an exact real. NaN, the infinities and the transport's rounding to `f64` are not modelled.
- FileLogger.WriteEffect: a failed `write_all` is modelled as writing nothing. A partial write before the failure is not modelled.
- Standard-output failures: a failing `println!` panics in the source. That is not modelled; printing always succeeds.
- Argument values: the transport's `Value` and `Number` types are modelled as null, bool, number (decimal, signed or unsigned 64-bit), string, array and object. The transport crate's own definitions are not part of this model.
- Transport and process lifetime: `src/cli_parser.rs`, module initialisation, function registration and the idle loop in `main` (src/main.rs:20-45) are not modelled.
