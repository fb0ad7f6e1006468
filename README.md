# Log adapter model

A Dafny model of the log adapter in the Go package `log`. It covers:

- **Trace-context enrichment.** `AddTraceID` stores a request id in a context. `AppendTracePoint` grows a `>`-separated breadcrumb path.
- **The level threshold.** `isLoggable` compares ranks from the granularity table.
- **Line formatting.** `setTag` builds the level tag and `formatMessage` builds the full line.
- **The two sinks.** `toConsole` and `toFile` write to standard output and to `out.log`.
- **Lifecycle and validation.** `NewAdapter`, `initLogFile` and `Destruct` manage the adapter, and `validateCfg` checks the configuration.

Modules, leaf first:

- `Base`: `Option`, which stands for an empty context slot or a nil Go `error`.
- `LogConfig`: the `Config` record (level, colours, console, file, directory).
- `Levels`: the four level names, the granularity table, `IsLoggable`, and how the threshold relates to the documented verbosity order.
- `TraceContext`: a Go context reduced to the two slots the adapter reads (trace id and trace path), the two enrichments, and lemmas about the breadcrumb path.
- `Validator`: `ValidateCfg`.
- `Format`: `SetTag` and `FormatMessage`.
- `LogAdapter`: the class `Adapter`. It has the configuration, the `lf` file handle (`NoFile`, `Open`, `Closed`), and ghost sequences `console` and `file` for what was printed and what was written. It also has the package-level constructor `NewAdapter`.

Parameters stand for what the model cannot see:

- **The granularity table.** It is defined in a file that is not part of this model, so it is a `map<string, int>` argument. A level missing from it has rank 0, as a Go map lookup gives.
- **The timestamp.** `now` is an argument; reading the clock is not modelled.
- **Rendering.** The colour library's styled tags and Go's `%v` rendering of the attachment slice are functions in `Renderers` (`palette`, `render`).
- **Operating-system results.** `openErr` is the result of opening the file. `writeErr` is the result of a write.

The level constants `levelError`, `levelWarn`, `levelDebug` and `levelInfo` are also defined outside the modelled files. They are taken to be `"ERROR"`, `"WARN"`, `"DEBUG"` and `"INFO"`. This matches the literal tags in `setTag`, the names in the configuration's documentation, and the `"ERROR"` level the test configures.

Behaviour of the code that the model makes explicit:

- **Rank order.** Config.go:7-11 documents that ERROR admits only ERROR, WARN adds WARN, DEBUG adds DEBUG and INFO admits all four. Under the `>=` test at Adapter.go:148, that holds exactly when rank(INFO) < rank(DEBUG) < rank(WARN) < rank(ERROR) (`Levels.DocumentedOrderIff`). For the table ERROR=1, DEBUG=2, WARN=3, INFO=4 it is reversed (`Levels.AscendingTableReversesDocumentedOrder`).
- **Write failures.** A failed file write is printed to standard output with `fmt.Println` (Adapter.go:188-191), whether or not console output is on.
- **Logging after `Destruct`.** `Destruct` closes the file (Adapter.go:80-82) and nothing stops later calls. A write to a closed `*os.File` fails with "file already closed", and `toFile` prints that error.
- **Unknown call levels.** A call level not in the table ranks 0 (Adapter.go:148), so it is filtered exactly when the configured level's rank is above 0.

## Model

| member | source | states |
|---|---|---|
| `TraceContext.AddTraceID` | Adapter.go:41-43 | the id slot becomes `id` whatever it held; the trace slot is unchanged |
| `TraceContext.AddTraceIDOverwrites` | Adapter.go:41-43 | adding two ids in turn is the same as adding only the second |
| `TraceContext.AppendTracePoint` | Adapter.go:46-55 | with no path the new path is exactly `point`; with path `p` it is `p + ">" + point` (an empty stored path gives `">" + point`); the id slot is unchanged |
| `TraceContext.EnrichmentsCommute` | Adapter.go:41-55 | setting the id and appending a point touch different slots and commute |
| `TraceContext.AppendTracePointsJoins` | Adapter.go:46-55 | appending points one by one starts or extends the path by the `>`-join of those points, in order, and never changes the id |
| `TraceContext.TwoPointsFromBackground` | Adapter.go:48-54 | from an empty context, `"a"` gives path `"a"`, and `"a"` then `"b"` give `"a>b"` |
| `TraceContext.TracePathRecoversPoints` | Adapter.go:46-55 | a path built from an empty slot by points without `>` splits at `>` back into exactly those points |
| `Levels.IsLoggable` | Adapter.go:147-149 | true iff rank(call level) >= rank(configured level), a missing level ranking 0; a configured level always admits itself; an unknown call level is filtered when the threshold ranks above 0 |
| `Levels.DocumentedOrderIff` | Config.go:5-11 | the documented admission sets (ERROR: ERROR only ... INFO: all four) hold for the threshold test iff rank(INFO) < rank(DEBUG) < rank(WARN) < rank(ERROR) |
| `Levels.AscendingTableReversesDocumentedOrder` | Config.go:7-11 | with ERROR=1, DEBUG=2, WARN=3, INFO=4 a threshold of ERROR admits INFO, INFO rejects ERROR, and the documented order fails |
| `Validator.ValidateCfg` | validator.go:6-14 | no error iff the configured level is a key of the table; otherwise the error text is `Unknown log level '<level>'` |
| `Validator.ErrorQuotesLevel` | validator.go:10 | a rejected configuration's error contains the level verbatim between single quotes |
| `Validator.OnlyLevelMatters` | validator.go:6-14 | configurations with the same level get the same verdict; colours, sinks and directory are never inspected |
| `Validator.FileWithoutDirectoryValidates` | validator.go:8-13 | a known level with file output on and an empty directory still validates |
| `Format.SetTag` | Adapter.go:152-171 | the plain `[LEVEL]` whenever colours are off, and for an unrecognised level when they are on; the palette's styled tag for the four known levels when colours are on |
| `Format.FormatMessage` | Adapter.go:122-144 | the line is `now tag [id] [trace] [message]`, where id and trace default to `NONE`; it gets no suffix without attachments and ` : ` plus their rendering with them |
| `Format.EmptyContextShowsNone` | Adapter.go:126-140 | a context without id or path renders `[NONE] [NONE]` in those fields |
| `Format.StoredValuesShownVerbatim` | Adapter.go:129-137 | an id and a path stored by the enrichments appear verbatim in their fields, even when empty |
| `Format.AttachmentsOnlyAppend` | Adapter.go:139-143 | the line with attachments is the line without them followed by ` : ` and their rendering in call order |
| `Format.LineReadsBack` | Adapter.go:139-140 | a line without attachments is the timestamp, the tag and three bracketed fields; when neither the id nor the trace holds a `]`, a reader recovers the id, the trace and the message from the line exactly |
| `LogAdapter.LogFilePath` | Adapter.go:94 | the log file is `out.log` for an empty directory, and otherwise the directory, a `/`, then `out.log` |
| `LogAdapter.WriteResult` | Adapter.go:188 | a write through an open handle reports the operating system's result; through a closed handle it always fails |
| `LogAdapter.Adapter.constructor` | Adapter.go:28-30 | a new adapter holds the configuration, no file handle, and has written nothing |
| `LogAdapter.Adapter.InitLogFile` | Adapter.go:86-102 | with file output off, the file system sees no open and there is no error; otherwise the file system sees one open of `out.log` in the directory, and an open error is returned unchanged with no handle kept, or that file becomes the open handle |
| `LogAdapter.Adapter.ToConsole` | Adapter.go:174-179 | prints the line iff console output is on; nothing else changes |
| `LogAdapter.Adapter.ToFile` | Adapter.go:182-192 | with file output on and a successful write, appends `line + "\n"` to the file; a failed write, or any write after closing, leaves the file as it was and prints the error; with file output off nothing changes |
| `LogAdapter.Adapter.Log` | Adapter.go:108-119 | below the threshold, neither sink changes; otherwise the formatted line goes to the console iff console output is on, and `line + "\n"` goes to the file iff file output is on and the write succeeds (a write error is printed after the line) |
| `LogAdapter.Adapter.Error` | Adapter.go:58-60 | the same effect on the sinks as `Log` at ERROR: filtered below the threshold, otherwise the line is printed and/or appended |
| `LogAdapter.Adapter.Debug` | Adapter.go:63-65 | the same effect on the sinks as `Log` at DEBUG: filtered below the threshold, otherwise the line is printed and/or appended |
| `LogAdapter.Adapter.Info` | Adapter.go:68-70 | the same effect on the sinks as `Log` at INFO: filtered below the threshold, otherwise the line is printed and/or appended |
| `LogAdapter.Adapter.Warn` | Adapter.go:73-75 | the same effect on the sinks as `Log` at WARN: filtered below the threshold, otherwise the line is printed and/or appended |
| `LogAdapter.Adapter.Destruct` | Adapter.go:78-83 | with file output on, the handle is closed, and closing twice is harmless; with it off, nothing happens |
| `LogAdapter.NewAdapter` | Adapter.go:21-38 | an invalid level yields no adapter and the validation error, and the file system's record of opens is unchanged; a valid level adds exactly one open of `out.log` when file output is on and none otherwise; a failed open yields no adapter and that error; a valid level with file output off or a successful open always yields a fresh, valid adapter and no error, with empty sinks and the file open iff file output is on |

## Left out

- Reading the wall clock (`time.Now().Format`). The timestamp string is an argument.
- The colour library's escape sequences. The styled tag of a known level is an opaque `palette` function.
- Go's `%v` rendering of the attachment slice. It is an opaque, deterministic `render` function. The model only guarantees that `render` receives the attachments in call order; what `render` does with that order is not constrained.
- Real I/O:
  - Opening, writing and closing the file, and printing, are appends to ghost sequences. The opens are recorded on a `FileSystem` object.
  - Whether an open or a write succeeds, and the operating system's error text, are arguments.
  - A failed write is modelled as writing nothing; partial writes are not modelled.
  - An error from `Close` is ignored by the code and not modelled.
- `LogAdapter.LogFilePath`: `filepath.Join` also cleans the path (removing `.`, `..` and repeated separators). Only the join with `/` is modelled.
- General Go contexts: only the two slots the adapter writes are modelled. Their keys come from an internal package that only this adapter writes, so a value of another type under those keys cannot occur. The model assumes a non-nil context: a nil `ctx` makes `context.WithValue` (Adapter.go:42, 51) and `ctx.Value` (Adapter.go:48, 129) panic, and `Context` has no nil value.
- Concurrent callers: the code takes no lock, and interleaving of writes is not modelled.
- AdapterInterface.go declares the enrichments under different names (`ContextWithTraceID`, `ContextWithTracePoint`). The model follows the names that Adapter.go defines.
- The two key constants in context/context.go are unused by the adapter. They are not part of this model.
- The granularity table and the level constants are defined in files that are not part of this model. The table is a parameter, and the constants are taken to be their names.
