# CLogger in Dafny

A model of `CLogger`, the singleton debug logger of LoggerForDebug, in its two
C++ variants:

- **Dll4Logger** (`dll4_logger.dfy`). `configureLogging` truncate-opens one
  owned `std::ofstream` and keeps it open. `writeLog` streams each entry into
  it and onto the console. `logMessage` and `logException` build
  `[LABEL][TIMESTAMP] ...` lines.
- **DllLogger_MFC** (`mfc_logger.dfy`). `configureLogging` only creates or
  empties the file. `writeLog` reopens it in append mode on every call.
  `logMessage` builds `[TIMESTAMP]\t [LABEL]\t` lines with a marker for each
  severity.

`log_format.dfy` holds what the two variants share:

- the four `ELogLevel`s and their labels;
- `extractFileName`, the `find_last_of("/\\")` branch;
- the decimal rendering of the `int` line number;
- the searches that read a rendered line back.

`environment.dfy` holds what the logger sees of its surroundings:

- an abstract file system `Disk`, which maps paths to contents and keeps a set
  of directories;
- `OsResponses`, the answers of `_getcwd`, `_mkdir` and the file open, which
  the logger cannot decide. These answers can only add failures. `Disk.CanOpen`
  itself refuses an open when the path is empty, ends in a separator, names a
  directory, or sits in a directory that does not exist. `Disk.Mkdir` refuses
  when anything already exists at the path;
- the three `std::runtime_error`s, as `LoggingError`, with their exact
  messages.

Each variant's `CLogger` is a class. Its fields are those of the source plus
the file system and the console output it writes to. `State()` is a snapshot
of those fields as a `Sink` value. Each method is proved against a pure step
function on `Sink`: `Configure`, which returns the new state and `Pass` or the
thrown error, and `Write`. The multi-call properties are lemmas about these
step functions over sequences of entries: writes in order, and truncation
followed by appends.

Where the code does something other than what it is evidently meant to do, the model
follows the code:

- **Plain variant, `logFile` declaration.** The header declares `logFile` as
  `std::ofstream*` (Dll4Logger/Logger.h:52). The .cpp uses it as an owned
  stream object, and the model does the same (`FileStream`).
- **Plain variant, re-configuring.** `open` on a stream that is already open
  fails and sets the failbit. The stream stays on its old file, `is_open()`
  stays true, and nothing is thrown. A failed stream's `<<` writes nothing.
  So re-configuring neither re-targets the logger nor truncates, and no later
  entry reaches any file (see Findings). Re-configuring is evidently meant to
  re-target the logger to the new file.
- **Plain variant, `Log` exists as a regular file.** The variant checks `Log`
  with `_access`, so `_mkdir` is skipped, and it is the file open that fails
  (`FileOpenError`), not the directory check. The comment at
  Dll4Logger/Logger.cpp:59 evidently means `Log` to be a directory once the
  check has passed.
- **MFC variant, writing with file logging off.** `writeLog` opens the file
  in append mode before it tests `saveToFile`. Writing with file logging off
  therefore still creates an empty file at `logFilename` (see Findings). With
  file logging off, the logger is evidently meant to leave the file system
  alone.

## Model

| member | source | states |
|---|---|---|
| LogFormat.ExtractFileName | Dll4Logger/Logger.cpp:116-120 | the result equals the input when it holds no `/` or `\`; otherwise it is a suffix of the input with no separator, and the character just before it is a separator |
| LogFormat.BaseNameUnique | Dll4Logger/Logger.cpp:112-122 | the final path component, defined independently as the separator-free suffix that follows a separator or the start, is unique, and `extractFileName` computes exactly it (both directions) |
| LogFormat.ExtractFileNameIdempotent | Dll4Logger/Logger.cpp:116-120 | extracting the basename of a basename changes nothing |
| LogFormat.ExtractFileNameExamples | DllLogger_MFC/Logger.cpp:128-133 | `a/b\c.txt`, `a/b/c.txt` and `a\b\c.txt` all give `c.txt`, and a bare `c.txt` is kept; the MFC variant's copy of the code is the same |
| LogFormat.LogLevelToString | Dll4Logger/Logger.cpp:157-166 | every declared severity gets a non-empty label free of `]` and newlines, and never the `default` "UNKNOWN" |
| LogFormat.LabelsIdentifyLevels | DllLogger_MFC/Logger.cpp:173-179 | reading a label back yields a severity exactly when that severity renders to that label |
| LogFormat.LabelsDistinct | Dll4Logger/Logger.cpp:159-165 | the four severities get four different labels |
| LogFormat.LastIndexOfAny | Dll4Logger/Logger.cpp:116 | `find_last_of`: None exactly when no character of the set occurs; otherwise the index holds one and no later index does |
| LogFormat.DecimalString | Dll4Logger/Logger.cpp:103 | `<< lineNumber`: non-empty text, a leading `-` exactly for negative numbers, digits everywhere else, and no leading zero: a digit sequence starts with `0` only when it is `0` itself |
| LogFormat.DecimalRoundTrip | Dll4Logger/Logger.cpp:103 | the decimal text of the line number (a leading `-` for negatives) reads back as the same number |
| Environment.WhatIdentifiesError | Dll4Logger/Logger.cpp:46-66 | the three error messages tell the three failures apart and recover the path they name |
| Dll4Logger.RenderMessage | Dll4Logger/Logger.cpp:99-103 | the line opens with the severity's label in brackets and ends so that the line number reads back exactly |
| Dll4Logger.RenderException | Dll4Logger/Logger.cpp:80-85 | the line opens with `[ERROR]` whatever it reports, and its line number reads back exactly |
| Dll4Logger.RenderMessageDecodes | Dll4Logger/Logger.cpp:100-103 | a `logMessage` line opens with the severity's label in brackets, then the bracketed timestamp, and ends with `:` and the line number before `)` and a newline; all three read back unchanged |
| Dll4Logger.RenderExceptionDecodes | Dll4Logger/Logger.cpp:81-85 | a `logException` line always carries the ERROR label, and its timestamp and line number read back unchanged |
| Dll4Logger.RenderMessageOneLine | Dll4Logger/Logger.cpp:100-104 | a message, function name and path without newlines make exactly one newline-terminated entry |
| Dll4Logger.RenderExceptionOneLine | Dll4Logger/Logger.cpp:81-86 | the same for the exception entry |
| Dll4Logger.Bootstrap | Dll4Logger/Logger.cpp:50-55 | fails exactly when nothing exists at `Log` and `_mkdir` fails; on success something exists at `Log`, no file changes, and the directories are the old ones plus at most `Log` |
| Dll4Logger.Configure | Dll4Logger/Logger.cpp:31-69 | the console is untouched; on return both fields are set and, with file logging on, a stream is open; an error other than the open error leaves the whole state unchanged |
| Dll4Logger.Write | Dll4Logger/Logger.cpp:128-138 | the console gains the entry; the fields, the stream and the directories stay as they were |
| Dll4Logger.ConfigureEarlyFailures | Dll4Logger/Logger.cpp:45-54 | a missing working directory throws "Failed to get current working directory."; a missing `Log` whose `_mkdir` fails throws the directory error, and only then; both leave every field, file and the console unchanged |
| Dll4Logger.ConfigureSetsFields | Dll4Logger/Logger.cpp:50-61 | once `Log` exists or is created, `logFilename` is `cwd + "/Log/" + filename` and `saveToFile` is the flag, whether or not the open that follows throws; the console is untouched |
| Dll4Logger.ConfigureTruncates | Dll4Logger/Logger.cpp:63-68 | on a closed stream with file logging on and any file name, the call succeeds exactly when the open of `logFilename` can succeed; otherwise it throws "Unable to open log file: " with `logFilename`; on success the stream is good and attached to `logFilename`, the file there is empty, and every other file and directory is as the directory step left it |
| Dll4Logger.ConfigureTruncatesBareName | Dll4Logger/Logger.cpp:60-64 | for a file name without separators, the open can succeed exactly when the name is non-empty, no directory is at the log file's path and `Log` is a directory (not a regular file); the file is then empty |
| Dll4Logger.ConfigureDisabledKeepsFiles | Dll4Logger/Logger.cpp:63 | with file logging off no file's contents change, the stream is left as it was, and no open error is thrown |
| Dll4Logger.ConfigureKeepsCoherent | Dll4Logger/Logger.cpp:31-69 | configuring keeps the file system well formed and an open stream attached to an existing file |
| Dll4Logger.WriteSinks | Dll4Logger/Logger.cpp:131-135 | `writeLog` always appends the entry to the console; it appends it to the stream's file exactly when file logging is on and the stream is open and good; fields, directories and every other file are unchanged |
| Dll4Logger.WriteKeepsCoherent | Dll4Logger/Logger.cpp:128-138 | writing keeps the file system well formed |
| Dll4Logger.WriteAllConsole | Dll4Logger/Logger.cpp:135 | after any sequence of writes, the console holds every entry in order, and the fields and the stream are unchanged |
| Dll4Logger.WriteAllAppends | Dll4Logger/Logger.cpp:131-133 | through a good open stream with file logging on, the file gains every entry in order |
| Dll4Logger.WriteAllSilent | Dll4Logger/Logger.cpp:131 | without file logging or a good open stream, no write changes the file system |
| Dll4Logger.EntriesSinceConfigure | Dll4Logger/Logger.cpp:60-68 | after the first successful configuration with file logging on, the log file holds exactly the entries written since (truncate, then append), and the console holds them after its earlier output |
| Dll4Logger.RunLogScenario | Dll4Logger/Logger.cpp:97-105 | configuring `run.log` and then logging an ERROR from line 42 and an INFO from line 45 leaves exactly those two lines, in that order; they read back as ERROR/42 and INFO/45 |
| Dll4Logger.ConfigureOnOpenStreamFails | Dll4Logger/Logger.cpp:63-68 | as written, configuring with file logging on while any stream is open returns normally, leaves the stream failed on its old file, and changes no file |
| Dll4Logger.ReconfigureSilencesFileSink | Dll4Logger/Logger.cpp:63-68 | as written, a second successful configuration with file logging on leaves the stream failed on the first file, changes no file and lets no later entry reach any file |
| Dll4Logger.ClosingFirstEarlyFailures | Dll4Logger/Logger.cpp:45-54 | the corrected configuration, which closes the stream only after the directory checks, still throws its early errors without changing anything |
| Dll4Logger.RetargetKeepsOnlyLaterEntries | Dll4Logger/Logger.cpp:63-68 | with the stream closed before the open, every successful configuration with file logging on re-targets the logger, and the new file holds exactly the entries written after it |
| Dll4Logger.CLogger.constructor | Dll4Logger/Logger.cpp:19 | a new logger has file logging off, no stream, no file name and an empty console, and its state is coherent |
| Dll4Logger.CLogger.ConfigureLogging | Dll4Logger/Logger.cpp:31-69 | the new state and the result (return or the thrown error) are those of `Configure` on the old state; coherence is kept |
| Dll4Logger.CLogger.ConfigureLoggingClosingFirst | Dll4Logger/Logger.cpp:31-69 | the corrected configuration, which closes the stream just before the open, has the new state and result of `ConfigureClosingFirst`; coherence is kept |
| Dll4Logger.CLogger.WriteLog | Dll4Logger/Logger.cpp:128-138 | the new state is `Write` of the old state and the entry; coherence is kept |
| Dll4Logger.CLogger.LogMessage | Dll4Logger/Logger.cpp:97-105 | writes exactly the rendered message line |
| Dll4Logger.CLogger.LogException | Dll4Logger/Logger.cpp:78-87 | writes exactly the rendered exception line |
| MfcLogger.Marker | DllLogger_MFC/Logger.cpp:98-112 | each severity's marker is non-empty and holds no newline |
| MfcLogger.MarkersDistinct | DllLogger_MFC/Logger.cpp:98-112 | the four markers `==> `, tab-`--> `, `** ` and `!! ` are pairwise different |
| MfcLogger.RenderMessage | DllLogger_MFC/Logger.cpp:94-115 | for a timestamp without `]`, the line opens with the bracketed timestamp and ends so that the line number reads back exactly |
| MfcLogger.RenderMessageDecodes | DllLogger_MFC/Logger.cpp:96-115 | a line opens with the bracketed timestamp, a tab and a space, the bracketed label, a tab and that severity's own marker; it ends with `:` and the line number before `)` and a newline; timestamp, severity and line number read back unchanged |
| MfcLogger.RenderMessageOneLine | DllLogger_MFC/Logger.cpp:94-116 | inputs without newlines make exactly one newline-terminated entry |
| MfcLogger.Bootstrap | DllLogger_MFC/Logger.cpp:57-63 | fails exactly when `Log` is not a directory and `_mkdir` fails or a file is in its way; on success `Log` is a directory, no file changes, and the directories are the old ones plus at most `Log` |
| MfcLogger.Configure | DllLogger_MFC/Logger.cpp:37-82 | the console is untouched; on return both fields are set and, with file logging on, the file at `logFilename` is empty; an error other than the open error leaves the whole state unchanged |
| MfcLogger.Write | DllLogger_MFC/Logger.cpp:140-152 | the console gains the entry; both fields and the directories stay, and every file other than the one at `logFilename` keeps its contents |
| MfcLogger.ConfigureEarlyFailures | DllLogger_MFC/Logger.cpp:52-62 | a missing working directory throws the working-directory error; the directory error is thrown exactly when `Log` is not a directory and `_mkdir` fails or a file is in its way; both leave the state unchanged |
| MfcLogger.ConfigureSetsFields | DllLogger_MFC/Logger.cpp:57-69 | past the directory check `Log` is a directory, and `logFilename` and `saveToFile` are set whether or not the open throws |
| MfcLogger.ConfigureTruncates | DllLogger_MFC/Logger.cpp:72-80 | with file logging on and any file name, the call succeeds exactly when the open of `logFilename` can succeed; otherwise it throws the open error with `logFilename`; on success the file at `logFilename` is empty and every other file and directory is as the directory step left it; no handle is kept |
| MfcLogger.ConfigureTruncatesBareName | DllLogger_MFC/Logger.cpp:68-79 | for a file name without separators, the open can succeed exactly when the name is non-empty and no directory is at the log file's path; the file is then empty |
| MfcLogger.ConfigureDisabledKeepsFiles | DllLogger_MFC/Logger.cpp:72 | with file logging off no file changes and no open error is thrown |
| MfcLogger.ConfigureKeepsValid | DllLogger_MFC/Logger.cpp:37-82 | configuring keeps the file system well formed |
| MfcLogger.WriteSinks | DllLogger_MFC/Logger.cpp:143-149 | the console always gets the entry; with file logging on and a successful append-open, the file at `logFilename` gains the entry at its end and nothing else changes; a failed append-open changes no file |
| MfcLogger.DisabledWriteCreatesAtMostEmptyFile | DllLogger_MFC/Logger.cpp:143-145 | with file logging off every file keeps its contents; the only possible change is a new empty file at `logFilename` |
| MfcLogger.WriteKeepsValid | DllLogger_MFC/Logger.cpp:140-152 | writing keeps the file system well formed |
| MfcLogger.UnconfiguredWritesOnlyConsole | DllLogger_MFC/Logger.cpp:22-28 | before any configuration (empty `logFilename`) a write touches only the console |
| MfcLogger.WriteAllConsole | DllLogger_MFC/Logger.cpp:149 | after any sequence of writes, the console holds every entry in order, and both fields and the directories are unchanged |
| MfcLogger.WriteAllAppends | DllLogger_MFC/Logger.cpp:144-146 | with file logging on, the file gains exactly the entries whose append-open succeeded, in order |
| MfcLogger.EntriesSinceConfigure | DllLogger_MFC/Logger.cpp:72-79 | after a successful configuration with file logging on, the file holds exactly the entries written since whose append-open succeeded, each appended in append mode by `writeLog` |
| MfcLogger.ReconfigureDiscardsEarlierEntries | DllLogger_MFC/Logger.cpp:68-79 | re-configuring with file logging on discards everything logged before, even into the same file; only the later entries remain |
| MfcLogger.DisabledWriteCreatesFile | DllLogger_MFC/Logger.cpp:143-145 | as written, after `configureLogging(filename, false)` the first write creates an empty file at `logFilename` |
| MfcLogger.WriteOnlyWhenEnabledSinks | DllLogger_MFC/Logger.cpp:143-149 | the corrected write leaves the file system alone with file logging off, and equals `writeLog` with it on |
| MfcLogger.CLogger.constructor | DllLogger_MFC/Logger.cpp:22-28 | a new logger has file logging off, no file name and an empty console, over a well-formed file system |
| MfcLogger.CLogger.ConfigureLogging | DllLogger_MFC/Logger.cpp:37-82 | the new state and the result are those of `Configure` on the old state; the file system stays well formed |
| MfcLogger.CLogger.WriteLog | DllLogger_MFC/Logger.cpp:140-152 | the new state is `Write` of the old state, the entry and the append-open's answer; the file system stays well formed |
| MfcLogger.CLogger.WriteLogOnlyWhenEnabled | DllLogger_MFC/Logger.cpp:143-145 | the corrected write's new state is `WriteOnlyWhenEnabled` of the old state |
| MfcLogger.CLogger.LogMessage | DllLogger_MFC/Logger.cpp:92-117 | writes exactly the rendered, marker-decorated line |

## Left out

- `std::mutex` / `std::lock_guard`: each call is one sequential, atomic step, and concurrency is not modelled.
- `getCurrentTime`: it depends on the clock, `localtime_s` and `strftime`. The timestamp is a parameter, assumed to be at most 19 characters of digits, `-`, `:` and spaces where a lemma needs it.
- `_getcwd`, `_access`, `stat`, `_mkdir` and the stream opens: the failures not fixed by the state of the abstract `Disk` are parameters (`OsResponses`, `appendSucceeds`). Some failures are fixed by the `Disk`: `Disk.CanOpen` refuses an empty path, a path ending in a separator, a directory and a missing parent directory, and `Disk.Mkdir` refuses an existing path.
- Path resolution: paths are literal strings. There is no resolution of `.`, `..` or repeated separators, and no case folding. So `configureLogging("./run.log", true)` with `<cwd>/Log` present throws `FileOpenError`, because the model looks for a directory literally named `<cwd>/Log/.`, whereas the system opens `<cwd>/Log/run.log`. A bare name `.` passes the model's open check and creates a file at `<cwd>/Log/.`, which names the `Log` directory itself. On a case-insensitive file system `a.log` and `A.LOG` are one file, but the model treats them as two, so `ConfigureTruncates`' "every other file is as before" is stated for literal paths.
- The C++17 branches (`std::filesystem`): they depend on library path semantics. The plain variant's C++17 branch also does not compile as written.
- `std::locale::global(std::locale("Korean"))` in the MFC constructor: the locale itself is not modelled, because its formatting data comes from the C++ runtime library.
- MfcLogger.RenderMessage: renders the line number as the "C" locale does. After the constructor installs the Korean locale, the `std::ostringstream` in `logMessage` uses that locale's digit grouping. Line numbers of 1000 or more then presumably carry a group separator (as in `1,234`), which the model does not show.
- `getInstance`, the destructors, the export macros and the `LOG_*` macros: the singleton is one `CLogger` object, and the macros' `__FUNCTION__`, `__FILE__` and `__LINE__` are ordinary parameters.
- `CException` and `CExcep`: plain message holders. The thrown errors are modelled as `LoggingError` values.
- `logFile.flush()` and MFC `logFile.close()`: buffering is not modelled. A write is visible in the file at once.
- Dll4Logger.Write: a write through a good, open stream with file logging on always succeeds. An I/O error during `<<` or `flush()` (a full disk, say) would set the badbit and silence every later write. The model does not capture that, so `Dll4Logger.WriteAllAppends`, `Dll4Logger.EntriesSinceConfigure` and `Dll4Logger.RetargetKeepsOnlyLaterEntries` hold only when no such error occurs.
- MfcLogger.Write: once the append-open has succeeded, `logFile.write` always succeeds. An I/O error there would lose that one entry. The model does not capture that, so `MfcLogger.WriteAllAppends` and `MfcLogger.EntriesSinceConfigure` count only failed append-opens as lost entries.
- Null `const char*` arguments and `ELogLevel` values outside the four declared ones: the model takes `string` and the four-valued `ELogLevel`, so the `default: "UNKNOWN"` branch is unreachable.
- Src/Logger.h: a header-only duplicate with no implementation. It is not part of this model.

## Findings

| source | as written | input that shows it | evidently intended | confidence | as-written member | corrected member |
|---|---|---|---|---|---|---|
| Dll4Logger/Logger.cpp:63-68 | `logFile.open` on a stream that is already open fails and sets the failbit; `is_open()` stays true, so nothing is thrown, and `writeLog` (131-133) then streams into a failed stream | `configureLogging("a.log", true)`, then `configureLogging("b.log", true)`, then `logMessage(...)`: `b.log` is never created, and neither file receives the entry | re-configuring re-targets the logger and truncates the new file | medium, not executed | Dll4Logger.ReconfigureSilencesFileSink | Dll4Logger.RetargetKeepsOnlyLaterEntries |
| DllLogger_MFC/Logger.cpp:143-145 | `writeLog` opens `logFilename` in append mode before it tests `saveToFile` | `configureLogging("app.log", false)`, then `logMessage(...)`: an empty `Log/app.log` appears | with file logging off, no file is created or written | medium, not executed | MfcLogger.DisabledWriteCreatesFile | MfcLogger.WriteOnlyWhenEnabledSinks |
