/**
 * The log adapter (Adapter.go): construction, the per-call pipeline and the
 * two sinks.
 *
 * Standard output and the log file are modelled as ghost sequences on the
 * adapter: `console` holds every line printed (fmt.Println adds the newline
 * itself), `file` holds every string written to out.log by this adapter.
 * Whether the operating system lets a file open or a write succeed is not
 * known to the model, so those outcomes are arguments.
 */
module LogAdapter {
  import opened Base
  import opened LogConfig
  import opened Levels
  import opened TraceContext
  import opened Format
  import opened Validator

  /** The adapter's `lf` handle: never opened (nil), open, or closed by Destruct. */
  datatype FileHandle = NoFile | Open(path: string) | Closed(path: string)

  /** filepath.Join(directory, "out.log"), leaving out path cleaning. */
  function LogFilePath(directory: string): (path: string)
    ensures directory == "" ==> path == "out.log"
    ensures directory != "" ==> |path| == |directory| + 8 && path[..|directory| + 1] == directory + "/" && path[|directory| + 1..] == "out.log"
  {
    if directory == "" then "out.log" else directory + "/out.log"
  }

  /** The error a write to a closed *os.File reports. */
  function ClosedFileError(path: string): string {
    "write " + path + ": file already closed"
  }

  /**
   * The operating system's side of opening files: `opens` records every
   * path os.OpenFile was asked to open, in order.
   */
  class FileSystem {
    ghost var opens: seq<string>

    constructor ()
      ensures opens == []
    {
      opens := [];
    }
  }

  /** What a write through `lf` reports: the operating system's answer while open, an error once closed. */
  function WriteResult(lf: FileHandle, writeErr: Option<string>): (err: Option<string>)
    requires !lf.NoFile?
    ensures lf.Closed? ==> err.Some?
    ensures lf.Open? ==> err == writeErr
  {
    match lf
    case Open(_) => writeErr
    case Closed(path) => Some(ClosedFileError(path))
  }

  class Adapter<A> {
    const cfg: Config
    /** The granularity table the level test reads. */
    const table: Granularity
    /** The colour library's tags and Go's rendering of attachments. */
    const rs: Renderers<A>
    var lf: FileHandle

    ghost var console: seq<string>
    ghost var file: seq<string>

    /**
     * The configured level passed validation, and a handle exists exactly
     * when file output is on, always for out.log in the configured directory.
     */
    ghost predicate Valid()
      reads this
    {
      && cfg.level in table
      && (cfg.file <==> !lf.NoFile?)
      && (!lf.NoFile? ==> lf.path == LogFilePath(cfg.directory))
    }

    /** The struct literal `&Adapter{cfg: cfg}`: no handle and nothing written yet. */
    constructor (cfg: Config, table: Granularity, rs: Renderers<A>)
      ensures this.cfg == cfg && this.table == table && this.rs == rs
      ensures lf == NoFile && console == [] && file == []
    {
      this.cfg := cfg;
      this.table := table;
      this.rs := rs;
      lf := NoFile;
      console := [];
      file := [];
    }

    /**
     * Opens `<Directory>/out.log` for appending when file output is on;
     * `openErr` is the operating system's answer to that open.
     */
    method InitLogFile(fs: FileSystem, openErr: Option<string>) returns (err: Option<string>)
      requires lf == NoFile
      modifies this`lf, fs
      ensures fs.opens == old(fs.opens) + (if cfg.file then [LogFilePath(cfg.directory)] else [])
      ensures !cfg.file ==> err == None && lf == NoFile
      ensures cfg.file && openErr.Some? ==> err == openErr && lf == NoFile
      ensures cfg.file && openErr.None? ==> err == None && lf == Open(LogFilePath(cfg.directory))
    {
      if !cfg.file {
        return None;
      }
      var ld := cfg.directory;
      fs.opens := fs.opens + [LogFilePath(ld)];
      if openErr.Some? {
        return openErr;
      }
      lf := Open(LogFilePath(ld));
      return None;
    }

    /** Prints the line when console output is on. */
    method ToConsole(message: string)
      modifies this`console
      ensures console == old(console) + (if cfg.console then [message] else [])
    {
      if cfg.console {
        console := console + [message];
      }
    }

    /**
     * Appends the line and a newline to the file when file output is on. A
     * failed write (`writeErr` from the operating system, or a handle already
     * closed) is printed and swallowed.
     */
    method ToFile(message: string, writeErr: Option<string>)
      requires Valid()
      modifies this`console, this`file
      ensures !cfg.file ==> console == old(console) && file == old(file)
      ensures cfg.file && lf.Open? && writeErr.None? ==>
        file == old(file) + [message + "\n"] && console == old(console)
      ensures cfg.file && lf.Open? && writeErr.Some? ==>
        file == old(file) && console == old(console) + [writeErr.value]
      ensures cfg.file && lf.Closed? ==>
        file == old(file) && console == old(console) + [ClosedFileError(lf.path)]
    {
      if !cfg.file {
        return;
      }
      var err := WriteResult(lf, writeErr);
      if err.None? {
        file := file + [message + "\n"];
      } else {
        console := console + [err.value];
      }
    }

    /**
     * The sinks after one log call at `level`, given the sinks before it:
     * nothing happens below the threshold; otherwise the line goes to the
     * console when console output is on, then to the file when file output is
     * on, where a failed write is printed instead.
     */
    ghost predicate LoggedOnce(console0: seq<string>, file0: seq<string>, ctx: Context, level: string,
                               message: string, options: seq<A>, now: string, writeErr: Option<string>)
      requires Valid()
      reads this
    {
      if !IsLoggable(table, cfg.level, level) then
        console == console0 && file == file0
      else
        var line := FormatMessage(cfg, rs, now, ctx, level, message, options);
        var printed := console0 + (if cfg.console then [line] else []);
        if !cfg.file then
          console == printed && file == file0
        else
          match WriteResult(lf, writeErr)
          case None => console == printed && file == file0 + [line + "\n"]
          case Some(err) => console == printed + [err] && file == file0
    }

    /**
     * One log call: nothing happens below the threshold; otherwise the line
     * is built and handed to the console sink, then to the file sink.
     */
    method Log(ctx: Context, level: string, message: string, options: seq<A>,
               now: string, writeErr: Option<string>)
      requires Valid()
      modifies this`console, this`file
      ensures Valid()
      ensures LoggedOnce(old(console), old(file), ctx, level, message, options, now, writeErr)
    {
      if !IsLoggable(table, cfg.level, level) {
        return;
      }
      var m := FormatMessage(cfg, rs, now, ctx, level, message, options);
      ToConsole(m);
      ToFile(m, writeErr);
    }

    method Error(ctx: Context, message: string, options: seq<A>, now: string, writeErr: Option<string>)
      requires Valid()
      modifies this`console, this`file
      ensures Valid()
      ensures LoggedOnce(old(console), old(file), ctx, LevelError, message, options, now, writeErr)
    {
      Log(ctx, LevelError, message, options, now, writeErr);
    }

    method Debug(ctx: Context, message: string, options: seq<A>, now: string, writeErr: Option<string>)
      requires Valid()
      modifies this`console, this`file
      ensures Valid()
      ensures LoggedOnce(old(console), old(file), ctx, LevelDebug, message, options, now, writeErr)
    {
      Log(ctx, LevelDebug, message, options, now, writeErr);
    }

    method Info(ctx: Context, message: string, options: seq<A>, now: string, writeErr: Option<string>)
      requires Valid()
      modifies this`console, this`file
      ensures Valid()
      ensures LoggedOnce(old(console), old(file), ctx, LevelInfo, message, options, now, writeErr)
    {
      Log(ctx, LevelInfo, message, options, now, writeErr);
    }

    method Warn(ctx: Context, message: string, options: seq<A>, now: string, writeErr: Option<string>)
      requires Valid()
      modifies this`console, this`file
      ensures Valid()
      ensures LoggedOnce(old(console), old(file), ctx, LevelWarn, message, options, now, writeErr)
    {
      Log(ctx, LevelWarn, message, options, now, writeErr);
    }

    /** Closes the handle when file output is on; closing twice changes nothing. */
    method Destruct()
      requires Valid()
      modifies this`lf
      ensures Valid()
      ensures cfg.file ==> lf == Closed(LogFilePath(cfg.directory))
      ensures !cfg.file ==> lf == NoFile
    {
      if cfg.file {
        lf := Closed(lf.path);
      }
    }
  }

  /**
   * Validates, then builds the adapter and opens its log file. On either
   * error no adapter is returned. The file system sees an open only for a
   * valid configuration with file output on.
   */
  method NewAdapter<A>(cfg: Config, table: Granularity, rs: Renderers<A>, fs: FileSystem, openErr: Option<string>)
    returns (a: Adapter?<A>, err: Option<string>)
    modifies fs
    ensures ValidateCfg(table, cfg).Some? ==> a == null && err == ValidateCfg(table, cfg) && fs.opens == old(fs.opens)
    ensures ValidateCfg(table, cfg).None? ==>
      fs.opens == old(fs.opens) + (if cfg.file then [LogFilePath(cfg.directory)] else [])
    ensures ValidateCfg(table, cfg).None? && cfg.file && openErr.Some? ==> a == null && err == openErr
    ensures err.None? <==> ValidateCfg(table, cfg).None? && (!cfg.file || openErr.None?)
    ensures err.None? <==> a != null
    ensures a != null ==>
      && fresh(a) && a.Valid()
      && a.cfg == cfg && a.table == table && a.rs == rs
      && a.console == [] && a.file == []
      && a.lf == (if cfg.file then Open(LogFilePath(cfg.directory)) else NoFile)
  {
    err := ValidateCfg(table, cfg);
    if err.Some? {
      return null, err;
    }
    var adapter := new Adapter(cfg, table, rs);
    err := adapter.InitLogFile(fs, openErr);
    if err.Some? {
      return null, err;
    }
    a := adapter;
  }
}
