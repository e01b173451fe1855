/**
 * The single-file backend (src/logger/file_logger.rs): filter, open the file
 * in append mode, append one line, and swallow every failure.
 */
module FileLogger {
  import opened Wrappers
  import opened Levels
  import opened LogLine
  import opened Host

  /** How the write of one line ended, as the environment reports it. */
  datatype WriteResult = Written | WriteFailed(reason: string)

  /** The environment's answers for one detached write: did the open succeed, how did the write end. */
  datatype Io = Io(openOk: bool, write: WriteResult)

  /** What one call of the backend leaves behind: the files, and the diagnostic it printed, if any. */
  datatype Effect = Effect(files: map<string, string>, diagnostic: Option<string>)

  /** The bytes appended for a record: the console line plus a newline. */
  function Line(level: LogLevel, data: string): (line: string)
    ensures |line| > 0 && line[..|line| - 1] == Format(level, data) && line[|line| - 1] == '\n'
  {
    Format(level, data) + "\n"
  }

  /**
   * Opening with `append(true)` and no `create` succeeds only on a file that
   * exists, and then only when the environment lets it.
   */
  predicate Opens(filePath: string, files: map<string, string>, io: Io)
  {
    filePath in files && io.openOk
  }

  /** The cases in which the line reaches the file. */
  predicate Appends(verbosity: u8, filePath: string, level: LogLevel, files: map<string, string>, io: Io)
  {
    Passes(verbosity, level) && Opens(filePath, files, io) && io.write.Written?
  }

  /** The message printed locally when the write fails: a fixed prefix, then the failure's own text. */
  function Diagnostic(reason: string): (message: string)
    ensures |message| > |reason| && message[|message| - |reason|..] == reason
  {
    "Unable to write to file: " + reason
  }

  /** The effect of `write(verbosity, file_path, log_level, data)` on the files in `files`. */
  function WriteEffect(verbosity: u8, filePath: string, level: LogLevel, data: string,
                       files: map<string, string>, io: Io): (e: Effect)
    ensures e.files.Keys == files.Keys
    ensures forall p :: p in files && p != filePath ==> e.files[p] == files[p]
    ensures Appends(verbosity, filePath, level, files, io) ==>
              e.files[filePath] == files[filePath] + Line(level, data)
    ensures !Appends(verbosity, filePath, level, files, io) ==> e.files == files
    ensures e.diagnostic.Some? <==>
              Passes(verbosity, level) && Opens(filePath, files, io) && io.write.WriteFailed?
    ensures e.diagnostic.Some? ==> e.diagnostic.value == Diagnostic(io.write.reason)
  {
    if !Passes(verbosity, level) || !Opens(filePath, files, io) then
      Effect(files, None)
    else
      match io.write
      case Written => Effect(files[filePath := files[filePath] + Line(level, data)], None)
      case WriteFailed(reason) => Effect(files, Some(Diagnostic(reason)))
  }

  /** The environment after an effect: files replaced, the diagnostic printed. */
  function Record(o: Outputs, e: Effect): Outputs
  {
    Outputs(o.stdout + (if e.diagnostic.Some? then [e.diagnostic.value] else []), e.files, o.dirRequests)
  }

  /** The backend itself, each step applied to the environment as it happens. */
  method Write(env: Environment, verbosity: u8, filePath: string, level: LogLevel, data: string, io: Io)
    modifies env
    ensures env.State() == Record(old(env.State()), WriteEffect(verbosity, filePath, level, data, old(env.files), io))
  {
    if verbosity <= Rank(level) {
      if !(filePath in env.files && io.openOk) {
        return;
      }
      match io.write
      case Written =>
        env.files := env.files[filePath := env.files[filePath] + Line(level, data)];
      case WriteFailed(reason) =>
        env.Print(Diagnostic(reason));
    }
  }

  /** Below the threshold nothing on disk changes and nothing is printed. */
  lemma BelowThresholdNoEffect(verbosity: u8, filePath: string, level: LogLevel, data: string,
                               files: map<string, string>, io: Io)
    requires Rank(level) < verbosity
    ensures WriteEffect(verbosity, filePath, level, data, files, io) == Effect(files, None)
  {
  }

  /** A failed open writes nothing and reports nothing. */
  lemma OpenFailureSilent(verbosity: u8, filePath: string, level: LogLevel, data: string,
                          files: map<string, string>, io: Io)
    requires !Opens(filePath, files, io)
    ensures WriteEffect(verbosity, filePath, level, data, files, io) == Effect(files, None)
  {
  }

  /** The contents on disk change exactly in the cases Appends names. */
  lemma DiskChangesIffAppends(verbosity: u8, filePath: string, level: LogLevel, data: string,
                              files: map<string, string>, io: Io)
    ensures WriteEffect(verbosity, filePath, level, data, files, io).files != files <==>
              Appends(verbosity, filePath, level, files, io)
  {
  }

  /** Append mode: what the file held before is a prefix of what it holds after. */
  lemma AppendKeepsPrefix(verbosity: u8, filePath: string, level: LogLevel, data: string,
                          files: map<string, string>, io: Io)
    requires filePath in files
    ensures var after := WriteEffect(verbosity, filePath, level, data, files, io).files[filePath];
            |files[filePath]| <= |after| && after[..|files[filePath]|] == files[filePath]
  {
  }

  /**
   * A file whose contents are its old contents followed by one appended line,
   * as WriteEffect leaves it on success, ends with a newline, and the text
   * added before that newline reads back as the record that was logged.
   */
  lemma AppendedLineReadsBack(before: string, level: LogLevel, data: string, after: string)
    requires after == before + Line(level, data)
    ensures |after| > |before| && after[|after| - 1] == '\n' &&
            Parse(after[|before|..|after| - 1]) == Some(Entry(level, data))
  {
    var line := Line(level, data);
    assert after[|before|..|after| - 1] == line[..|line| - 1];
    ParseFormat(level, data);
  }

  /** Two successful writes to one file leave both lines, in the order the model issues them. */
  lemma TwoWritesAppendInOrder(v1: u8, l1: LogLevel, d1: string, io1: Io,
                               v2: u8, l2: LogLevel, d2: string, io2: Io,
                               filePath: string, files: map<string, string>)
    requires Appends(v1, filePath, l1, files, io1)
    requires Appends(v2, filePath, l2, WriteEffect(v1, filePath, l1, d1, files, io1).files, io2)
    ensures WriteEffect(v2, filePath, l2, d2, WriteEffect(v1, filePath, l1, d1, files, io1).files, io2).files[filePath]
            == files[filePath] + Line(l1, d1) + Line(l2, d2)
  {
  }
}
