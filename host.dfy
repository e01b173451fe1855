/**
 * What the logger can affect outside itself: the lines printed to standard
 * output, the contents of the files on disk, and the calls handed to the
 * directory backend, whose own source (src/logger/dir_logger.rs) is not part
 * of this model and is therefore only recorded.
 */
module Host {
  import opened Levels

  /** One call of the directory backend, `dir_logger::write(verbosity, dir_path, log_level, data)`. */
  datatype DirRequest = DirRequest(verbosity: u8, dirPath: string, level: LogLevel, data: string)

  /** A snapshot of the environment. */
  datatype Outputs = Outputs(stdout: seq<string>, files: map<string, string>, dirRequests: seq<DirRequest>)

  /** The process's surroundings, changed in place by the write paths. */
  class Environment {
    var stdout: seq<string>
    var files: map<string, string>
    var dirRequests: seq<DirRequest>

    function State(): (o: Outputs)
      reads this
      ensures o.stdout == stdout && o.files == files && o.dirRequests == dirRequests
    {
      Outputs(stdout, files, dirRequests)
    }

    /** Nothing printed yet, no directory calls yet, the given files on disk. */
    constructor (files: map<string, string>)
      ensures State() == Outputs([], files, [])
    {
      stdout := [];
      this.files := files;
      dirRequests := [];
    }

    /** `println!`: one more line on standard output. */
    method Print(line: string)
      modifies this
      ensures State() == old(State()).(stdout := old(stdout) + [line])
    {
      stdout := stdout + [line];
    }

    /** Hands one call to the directory backend. */
    method RecordDirRequest(request: DirRequest)
      modifies this
      ensures State() == old(State()).(dirRequests := old(dirRequests) + [request])
    {
      dirRequests := dirRequests + [request];
    }
  }
}
