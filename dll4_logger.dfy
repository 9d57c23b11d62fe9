/**
 * The plain shared-library variant of CLogger: uniform line bodies, an
 * exception logger, and a log file stream that `configureLogging` opens
 * (truncating it) and keeps open for every later write.
 */
module Dll4Logger {
  import opened Wrappers
  import opened LogFormat
  import opened Environment

  // ---------------------------------------------------------------- rendering

  /**
   * The frame both plain lines share: `[LABEL][TIMESTAMP] `, a body that ends
   * with the basename, then `:`, the decimal line number, `)` and a newline.
   */
  function Frame(text: string, timestamp: string, body: string, n: int): string {
    "[" + text + "][" + timestamp + "] " + body + ":" + DecimalString(n) + ")\n"
  }

  /**
   * The frame opens with the bracketed label and, after the body, reads back
   * the line number it ends with.
   */
  lemma FrameEnds(text: string, timestamp: string, body: string, n: int)
    requires ']' !in text
    ensures BracketField(Frame(text, timestamp, body, n)).Some?
    ensures BracketField(Frame(text, timestamp, body, n)).value.0 == text
    ensures DecodeLineNumber(Frame(text, timestamp, body, n)) == Some(n)
  {
    var d := DecimalString(n);
    var rest := "[" + timestamp + "] " + body + ":" + d + ")\n";
    assert Frame(text, timestamp, body, n) == "[" + text + "]" + rest;
    BracketFieldOf(text, rest);
    assert Frame(text, timestamp, body, n) == ("[" + text + "][" + timestamp + "] " + body) + ":" + d + ")\n";
    LineNumberOf("[" + text + "][" + timestamp + "] " + body, n);
  }

  /** The line `logMessage` builds; `timestamp` stands for `getCurrentTime()`. */
  function RenderMessage(level: ELogLevel, message: string, functionName: string,
                         fileName: string, lineNumber: int32, timestamp: string): (line: string)
    ensures BracketField(line).Some? && BracketField(line).value.0 == LogLevelToString(level)
    ensures DecodeLineNumber(line) == Some(lineNumber as int)
  {
    var body := message + "(Logged from " + functionName + " at " + ExtractFileName(fileName);
    FrameEnds(LogLevelToString(level), timestamp, body, lineNumber as int);
    Frame(LogLevelToString(level), timestamp, body, lineNumber as int)
  }

  /** The line `logException` builds: always the ERROR label, and its own body. */
  function RenderException(message: string, functionName: string, fileName: string,
                           lineNumber: int32, timestamp: string): (line: string)
    ensures BracketField(line).Some? && BracketField(line).value.0 == "ERROR"
    ensures DecodeLineNumber(line) == Some(lineNumber as int)
  {
    var body := "Message: " + message + "(Exception in " + functionName + " at " + ExtractFileName(fileName);
    FrameEnds(LogLevelToString(LogError), timestamp, body, lineNumber as int);
    Frame(LogLevelToString(LogError), timestamp, body, lineNumber as int)
  }

  /** Reads the severity, the timestamp and the line number back from a plain line. */
  function DecodeHeader(line: string): Option<Header> {
    match BracketField(line)
    case None => None
    case Some((text, rest)) =>
      match LevelOfLabel(text)
      case None => None
      case Some(level) =>
        match BracketField(rest)
        case None => None
        case Some((timestamp, _)) =>
          match DecodeLineNumber(line)
          case None => None
          case Some(n) => Some(Header(level, timestamp, n))
  }

  /** The severity, the timestamp and the line number of a framed line can be read back. */
  lemma DecodeFrame(level: ELogLevel, timestamp: string, body: string, n: int)
    requires WellFormedTimestamp(timestamp)
    ensures DecodeHeader(Frame(LogLevelToString(level), timestamp, body, n))
            == Some(Header(level, timestamp, n))
  {
    var text := LogLevelToString(level);
    var d := DecimalString(n);
    var head := "[" + text + "][" + timestamp + "] " + body;
    var line := Frame(text, timestamp, body, n);
    assert line == head + ":" + d + ")\n";
    var rest2 := " " + body + ":" + d + ")\n";
    var rest1 := "[" + timestamp + "]" + rest2;
    assert line == "[" + text + "]" + rest1;
    BracketFieldOf(text, rest1);
    LabelsIdentifyLevels(text, level);
    assert ']' !in timestamp;
    BracketFieldOf(timestamp, rest2);
    LineNumberOf(head, n);
  }

  lemma RenderMessageDecodes(level: ELogLevel, message: string, functionName: string,
                             fileName: string, lineNumber: int32, timestamp: string)
    requires WellFormedTimestamp(timestamp)
    ensures DecodeHeader(RenderMessage(level, message, functionName, fileName, lineNumber, timestamp))
            == Some(Header(level, timestamp, lineNumber as int))
  {
    DecodeFrame(level, timestamp,
                message + "(Logged from " + functionName + " at " + ExtractFileName(fileName),
                lineNumber as int);
  }

  lemma RenderExceptionDecodes(message: string, functionName: string, fileName: string,
                               lineNumber: int32, timestamp: string)
    requires WellFormedTimestamp(timestamp)
    ensures DecodeHeader(RenderException(message, functionName, fileName, lineNumber, timestamp))
            == Some(Header(LogError, timestamp, lineNumber as int))
  {
    DecodeFrame(LogError, timestamp,
                "Message: " + message + "(Exception in " + functionName + " at " + ExtractFileName(fileName),
                lineNumber as int);
  }

  /** A framed line whose parts hold no newline is exactly one newline-terminated line. */
  lemma FrameOneLine(text: string, timestamp: string, body: string, n: int)
    requires '\n' !in text && '\n' !in body && WellFormedTimestamp(timestamp)
    ensures OneLine(Frame(text, timestamp, body, n))
  {
    var line := Frame(text, timestamp, body, n);
    var front := "[" + text + "][" + timestamp + "] " + body + ":" + DecimalString(n) + ")";
    assert line == front + "\n";
    assert line[..|line| - 1] == front;
    DecimalStringPlain(n);
  }

  /** A basename holds no character its path does not. */
  lemma ExtractFileNameNoNewline(fileName: string)
    requires '\n' !in fileName
    ensures '\n' !in ExtractFileName(fileName)
  {
    var name := ExtractFileName(fileName);
    assert forall k :: 0 <= k < |name| ==> name[k] == fileName[|fileName| - |name| + k];
  }

  /** A message without newlines is logged as exactly one newline-terminated line. */
  lemma RenderMessageOneLine(level: ELogLevel, message: string, functionName: string,
                             fileName: string, lineNumber: int32, timestamp: string)
    requires '\n' !in message && '\n' !in functionName && '\n' !in fileName
    requires WellFormedTimestamp(timestamp)
    ensures OneLine(RenderMessage(level, message, functionName, fileName, lineNumber, timestamp))
  {
    ExtractFileNameNoNewline(fileName);
    FrameOneLine(LogLevelToString(level), timestamp,
                 message + "(Logged from " + functionName + " at " + ExtractFileName(fileName),
                 lineNumber as int);
  }

  lemma RenderExceptionOneLine(message: string, functionName: string, fileName: string,
                               lineNumber: int32, timestamp: string)
    requires '\n' !in message && '\n' !in functionName && '\n' !in fileName
    requires WellFormedTimestamp(timestamp)
    ensures OneLine(RenderException(message, functionName, fileName, lineNumber, timestamp))
  {
    ExtractFileNameNoNewline(fileName);
    FrameOneLine(LogLevelToString(LogError), timestamp,
                 "Message: " + message + "(Exception in " + functionName + " at " + ExtractFileName(fileName),
                 lineNumber as int);
  }

  // ---------------------------------------------------------------- sink state

  /**
   * The owned `std::ofstream logFile`: closed, or attached to `path`; `good`
   * is false once the stream's failbit is set, after which `<<` writes nothing.
   */
  datatype FileStream = Closed | Open(path: string, good: bool)

  /** The logger's fields together with the file system and the console it writes to. */
  datatype Sink = Sink(logFilename: string, saveToFile: bool, logFile: FileStream,
                       disk: Disk, console: string)

  /** The state after `configureLogging`, and whether it returned or threw. */
  datatype Configured = Configured(after: Sink, result: Outcome<LoggingError>)

  /** The freshly constructed logger: no file, file logging off, an empty console. */
  function Initial(disk: Disk): Sink {
    Sink("", false, Closed, disk, "")
  }

  /** The file system is well formed and the stream, when open, is attached to a file. */
  predicate Coherent(s: Sink) {
    s.disk.Valid() && (s.logFile.Open? ==> s.logFile.path in s.disk.files)
  }

  /** `_access` then, only when nothing is there, `_mkdir`. */
  function Bootstrap(disk: Disk, logDir: string, mkdirSucceeds: bool): (r: Option<Disk>)
    ensures r.None? <==> !disk.Exists(logDir) && !mkdirSucceeds
    ensures r.Some? ==> r.value.Exists(logDir) && r.value.files == disk.files && disk.dirs <= r.value.dirs
    ensures r.Some? ==> r.value.dirs <= disk.dirs + {logDir}
  {
    if disk.Exists(logDir) then Some(disk) else disk.Mkdir(logDir, mkdirSucceeds)
  }

  /**
   * `configureLogging` (C++14 branch). Opening a stream that is already open
   * fails without closing it: the failbit is set, `is_open()` stays true, so
   * nothing is thrown, nothing is truncated and the stream stays on its old file.
   */
  function Configure(s: Sink, filename: string, enableFileLogging: bool, os: OsResponses): (c: Configured)
    ensures c.after.console == s.console
    ensures c.result.Pass? ==> os.cwd.Some?
    ensures c.result.Pass? ==> c.after.logFilename == LogDir(os.cwd.value) + "/" + filename
    ensures c.result.Pass? ==> c.after.saveToFile == enableFileLogging
    ensures c.result.Pass? && enableFileLogging ==> c.after.logFile.Open?
    ensures c.result.Fail? && !c.result.error.FileOpenError? ==> c.after == s
  {
    match os.cwd
    case None => Configured(s, Fail(WorkingDirectoryError))
    case Some(cwd) =>
      match Bootstrap(s.disk, LogDir(cwd), os.mkdirSucceeds)
      case None => Configured(s, Fail(DirectoryError(LogDir(cwd))))
      case Some(disk) =>
        var path := LogDir(cwd) + "/" + filename;
        var s1 := s.(logFilename := path, saveToFile := enableFileLogging, disk := disk);
        if !enableFileLogging then Configured(s1, Pass)
        else match s.logFile
          case Open(attached, _) => Configured(s1.(logFile := Open(attached, false)), Pass)
          case Closed =>
            match disk.OpenForOutput(path, true, os.openSucceeds)
            case None => Configured(s1, Fail(FileOpenError(path)))
            case Some(created) => Configured(s1.(logFile := Open(path, true), disk := created), Pass)
  }

  /** `writeLog`: to the file only through a good, open stream with file logging on; always to the console. */
  function Write(s: Sink, entry: string): (t: Sink)
    ensures t.console == s.console + entry
    ensures t.logFilename == s.logFilename && t.saveToFile == s.saveToFile && t.logFile == s.logFile
    ensures t.disk.dirs == s.disk.dirs
  {
    var toFile := s.saveToFile && s.logFile.Open? && s.logFile.good;
    s.(disk := if toFile then s.disk.Append(s.logFile.path, entry) else s.disk,
       console := s.console + entry)
  }

  /** Several `writeLog` calls in a row. */
  function WriteAll(s: Sink, entries: seq<string>): Sink
    decreases |entries|
  {
    if entries == [] then s else WriteAll(Write(s, entries[0]), entries[1..])
  }

  // ---------------------------------------------------------------- properties of configuration

  /** The first two failures are thrown before any field or file changes. */
  lemma ConfigureEarlyFailures(s: Sink, filename: string, enableFileLogging: bool, os: OsResponses)
    ensures var c := Configure(s, filename, enableFileLogging, os);
      && (os.cwd.None? <==> c.result == Fail(WorkingDirectoryError))
      && (os.cwd.Some? ==>
            (c.result == Fail(DirectoryError(LogDir(os.cwd.value)))
             <==> !s.disk.Exists(LogDir(os.cwd.value)) && !os.mkdirSucceeds))
      && (c.result.Fail? && !c.result.error.FileOpenError? ==> c.after == s)
  {
  }

  /**
   * Once the directory is in place the fields are set, whether or not the
   * open that follows throws; the console is never touched.
   */
  lemma ConfigureSetsFields(s: Sink, filename: string, enableFileLogging: bool, os: OsResponses)
    requires os.cwd.Some?
    requires s.disk.Exists(LogDir(os.cwd.value)) || os.mkdirSucceeds
    ensures var c := Configure(s, filename, enableFileLogging, os);
      && c.after.logFilename == LogDir(os.cwd.value) + "/" + filename
      && c.after.saveToFile == enableFileLogging
      && c.after.console == s.console
      && LogDir(os.cwd.value) in c.after.disk.dirs + c.after.disk.files.Keys
  {
  }

  /**
   * On a closed stream with file logging on, configuring either throws
   * FileOpenError or leaves the stream on an empty file at `logFilename`;
   * apart from the `Log` directory and that file, the file system is as it was.
   */
  lemma ConfigureTruncates(s: Sink, filename: string, os: OsResponses)
    requires s.logFile.Closed?
    requires os.cwd.Some?
    requires s.disk.Exists(LogDir(os.cwd.value)) || os.mkdirSucceeds
    ensures Bootstrap(s.disk, LogDir(os.cwd.value), os.mkdirSucceeds).Some?
    ensures var d := Bootstrap(s.disk, LogDir(os.cwd.value), os.mkdirSucceeds).value;
      var c := Configure(s, filename, true, os);
      && (c.result.Pass? <==> os.openSucceeds && d.CanOpen(c.after.logFilename))
      && (c.result.Fail? ==> c.result == Fail(FileOpenError(c.after.logFilename)) && c.after.disk == d)
      && (c.result.Pass? ==> c.after.logFile == Open(c.after.logFilename, true)
                             && c.after.disk == Disk(d.files[c.after.logFilename := ""], d.dirs))
  {
  }

  /**
   * For a file name without separators, the open can succeed exactly when the
   * name is non-empty and no directory already sits at the log file's path.
   */
  lemma ConfigureTruncatesBareName(s: Sink, filename: string, os: OsResponses)
    requires s.logFile.Closed? && NoSeparator(filename)
    requires os.cwd.Some?
    requires s.disk.Exists(LogDir(os.cwd.value)) || os.mkdirSucceeds
    ensures var c := Configure(s, filename, true, os);
      && (c.result.Pass? <==> os.openSucceeds && filename != "" && c.after.logFilename !in s.disk.dirs
                              && LogDir(os.cwd.value) in c.after.disk.dirs)
      && (c.result.Pass? ==> c.after.disk.files[c.after.logFilename] == "")
  {
    var dir := LogDir(os.cwd.value);
    var disk := Bootstrap(s.disk, dir, os.mkdirSucceeds).value;
    var path := dir + "/" + filename;
    ParentOfLogFile(disk, dir, filename);
    assert |path| > |dir| && path != dir;
    assert filename != "" ==> path[|path| - 1] == filename[|filename| - 1];
  }

  /** With file logging off, configuring leaves the stream and every file's contents alone. */
  lemma ConfigureDisabledKeepsFiles(s: Sink, filename: string, os: OsResponses)
    ensures var c := Configure(s, filename, false, os);
      && c.after.logFile == s.logFile && c.after.disk.files == s.disk.files
      && !(c.result.Fail? && c.result.error.FileOpenError?)
  {
  }

  lemma ConfigureKeepsCoherent(s: Sink, filename: string, enableFileLogging: bool, os: OsResponses)
    requires Coherent(s)
    ensures Coherent(Configure(s, filename, enableFileLogging, os).after)
  {
  }

  // ---------------------------------------------------------------- properties of writing

  /**
   * `writeLog` always appends the entry to the console; it appends it to the
   * stream's file exactly when file logging is on and the stream is open and
   * good; the fields and every other file stay as they were.
   */
  lemma WriteSinks(s: Sink, entry: string)
    ensures var t := Write(s, entry);
      && t.console == s.console + entry
      && t.logFilename == s.logFilename && t.saveToFile == s.saveToFile && t.logFile == s.logFile
      && t.disk.dirs == s.disk.dirs
      && (s.saveToFile && s.logFile.Open? && s.logFile.good ==>
            t.disk.files == s.disk.files[s.logFile.path := s.disk.Content(s.logFile.path) + entry])
      && (!(s.saveToFile && s.logFile.Open? && s.logFile.good) ==> t.disk == s.disk)
  {
  }

  lemma WriteKeepsCoherent(s: Sink, entry: string)
    requires Coherent(s)
    ensures Coherent(Write(s, entry))
  {
  }

  /** The console receives every entry, in order. */
  lemma {:induction false} WriteAllConsole(s: Sink, entries: seq<string>)
    ensures WriteAll(s, entries).console == s.console + Concat(entries)
    ensures WriteAll(s, entries).logFile == s.logFile
    ensures WriteAll(s, entries).saveToFile == s.saveToFile
    ensures WriteAll(s, entries).logFilename == s.logFilename
    decreases |entries|
  {
    if entries != [] {
      WriteAllConsole(Write(s, entries[0]), entries[1..]);
    }
  }

  /** Through a good open stream the file receives every entry, in order. */
  lemma {:induction false} WriteAllAppends(s: Sink, entries: seq<string>)
    requires s.saveToFile && s.logFile.Open? && s.logFile.good
    ensures WriteAll(s, entries).disk.Content(s.logFile.path)
            == s.disk.Content(s.logFile.path) + Concat(entries)
    decreases |entries|
  {
    if entries != [] {
      var t := Write(s, entries[0]);
      WriteAllAppends(t, entries[1..]);
    }
  }

  /** Without a good stream, or with file logging off, no file changes at all. */
  lemma {:induction false} WriteAllSilent(s: Sink, entries: seq<string>)
    requires !(s.saveToFile && s.logFile.Open? && s.logFile.good)
    ensures WriteAll(s, entries).disk == s.disk
    decreases |entries|
  {
    if entries != [] {
      WriteAllSilent(Write(s, entries[0]), entries[1..]);
    }
  }

  /**
   * After the first successful configuration with file logging on, the file
   * holds exactly the entries written since, in order, and so does the tail
   * of the console.
   */
  lemma EntriesSinceConfigure(s: Sink, filename: string, os: OsResponses, entries: seq<string>)
    requires s.logFile.Closed?
    requires Configure(s, filename, true, os).result.Pass?
    ensures var c := Configure(s, filename, true, os).after;
      c.logFilename in WriteAll(c, entries).disk.files
    ensures var c := Configure(s, filename, true, os).after;
      && WriteAll(c, entries).disk.files[c.logFilename] == Concat(entries)
      && WriteAll(c, entries).console == s.console + Concat(entries)
  {
    var c := Configure(s, filename, true, os).after;
    WriteAllAppends(c, entries);
    WriteAllConsole(c, entries);
    WriteAllFileExists(c, entries);
  }

  /** A file the stream writes to stays on disk. */
  lemma {:induction false} WriteAllFileExists(s: Sink, entries: seq<string>)
    requires s.logFile.Open? && s.logFile.path in s.disk.files
    ensures s.logFile.path in WriteAll(s, entries).disk.files
    decreases |entries|
  {
    if entries != [] {
      WriteAllFileExists(Write(s, entries[0]), entries[1..]);
    }
  }

  /**
   * A two-entry scenario: configure "run.log", log an ERROR from storage.cpp:42
   * and then an INFO from storage.cpp:45; the file holds those two lines in
   * that order, the first tagged ERROR and 42, the second INFO and 45.
   */
  lemma RunLogScenario(disk: Disk, os: OsResponses, t1: string, t2: string, e1: string, e2: string)
    requires Configure(Initial(disk), "run.log", true, os).result.Pass?
    requires WellFormedTimestamp(t1) && WellFormedTimestamp(t2)
    requires e1 == RenderMessage(LogError, "disk full", "Flush", "storage.cpp", 42, t1)
    requires e2 == RenderMessage(LogInfo, "retry ok", "Flush", "storage.cpp", 45, t2)
    ensures var c := Configure(Initial(disk), "run.log", true, os).after;
      c.logFilename in Write(Write(c, e1), e2).disk.files
    ensures var c := Configure(Initial(disk), "run.log", true, os).after;
      Write(Write(c, e1), e2).disk.files[c.logFilename] == e1 + e2
    ensures DecodeHeader(e1) == Some(Header(LogError, t1, 42))
    ensures DecodeHeader(e2) == Some(Header(LogInfo, t2, 45))
  {
    TwoEntriesSinceConfigure(Initial(disk), "run.log", os, e1, e2);
    RenderMessageDecodes(LogError, "disk full", "Flush", "storage.cpp", 42, t1);
    RenderMessageDecodes(LogInfo, "retry ok", "Flush", "storage.cpp", 45, t2);
  }

  lemma TwoEntriesSinceConfigure(s: Sink, filename: string, os: OsResponses, e1: string, e2: string)
    requires s.logFile.Closed?
    requires Configure(s, filename, true, os).result.Pass?
    ensures var c := Configure(s, filename, true, os).after;
      c.logFilename in Write(Write(c, e1), e2).disk.files
    ensures var c := Configure(s, filename, true, os).after;
      Write(Write(c, e1), e2).disk.files[c.logFilename] == e1 + e2
  {
    var c := Configure(s, filename, true, os).after;
    EntriesSinceConfigure(s, filename, os, [e1, e2]);
    assert WriteAll(c, [e1, e2]) == Write(Write(c, e1), e2) by {
      assert [e1, e2][1..] == [e2];
      assert [e2][1..] == [];
      assert WriteAll(Write(c, e1), [e2]) == WriteAll(Write(Write(c, e1), e2), []);
    }
    assert Concat([e1, e2]) == e1 + e2 by {
      assert [e1, e2][1..] == [e2];
      assert [e2][1..] == [];
    }
  }

  // ---------------------------------------------------------------- re-configuration

  /**
   * As written, configuring with file logging on while the stream is open
   * (whatever it was opened on, and whatever was written since) returns
   * normally, puts the stream in the failed state on its old file, and
   * creates or truncates no file.
   */
  lemma ConfigureOnOpenStreamFails(s: Sink, filename: string, os: OsResponses)
    requires s.logFile.Open?
    requires os.cwd.Some?
    requires s.disk.Exists(LogDir(os.cwd.value)) || os.mkdirSucceeds
    ensures var c := Configure(s, filename, true, os);
      && c.result.Pass?
      && c.after.logFile == Open(s.logFile.path, false)
      && c.after.disk.files == s.disk.files
  {
  }

  /**
   * So a second successful configuration with file logging on leaves the
   * stream failed on the first file, changes no file, and no later entry
   * reaches any file.
   */
  lemma ReconfigureSilencesFileSink(s: Sink, first: string, second: string,
                                    os1: OsResponses, os2: OsResponses, entries: seq<string>)
    requires s.logFile.Closed?
    requires Configure(s, first, true, os1).result.Pass?
    requires Configure(Configure(s, first, true, os1).after, second, true, os2).result.Pass?
    ensures var c1 := Configure(s, first, true, os1).after;
      var c2 := Configure(c1, second, true, os2).after;
      && c2.logFile == Open(c1.logFilename, false)
      && c2.disk.files == c1.disk.files
      && WriteAll(c2, entries).disk == c2.disk
  {
    var c1 := Configure(s, first, true, os1).after;
    var c2 := Configure(c1, second, true, os2).after;
    ConfigureOnOpenStreamFails(c1, second, os2);
    WriteAllSilent(c2, entries);
  }

  /** The working directory is known and the `Log` directory is in place or can be made. */
  predicate DirectoryReady(s: Sink, os: OsResponses) {
    os.cwd.Some? && Bootstrap(s.disk, LogDir(os.cwd.value), os.mkdirSucceeds).Some?
  }

  /**
   * The evident intent: once the directory checks have passed, close the
   * stream before opening the new file.
   */
  function ConfigureClosingFirst(s: Sink, filename: string, enableFileLogging: bool, os: OsResponses): Configured {
    if enableFileLogging && DirectoryReady(s, os) then Configure(s.(logFile := Closed), filename, true, os)
    else Configure(s, filename, enableFileLogging, os)
  }

  /** The corrected configuration still throws its early errors before changing anything. */
  lemma ClosingFirstEarlyFailures(s: Sink, filename: string, enableFileLogging: bool, os: OsResponses)
    ensures var c := ConfigureClosingFirst(s, filename, enableFileLogging, os);
      && (os.cwd.None? <==> c.result == Fail(WorkingDirectoryError))
      && (c.result.Fail? && !c.result.error.FileOpenError? ==> c.after == s)
  {
  }

  /**
   * With the stream closed first, every successful configuration with file
   * logging on re-targets the logger: the new file holds exactly the entries
   * written after it.
   */
  lemma RetargetKeepsOnlyLaterEntries(s: Sink, filename: string, os: OsResponses, entries: seq<string>)
    requires ConfigureClosingFirst(s, filename, true, os).result.Pass?
    ensures var c := ConfigureClosingFirst(s, filename, true, os).after;
      && c.logFile == Open(c.logFilename, true)
      && c.logFilename in WriteAll(c, entries).disk.files
    ensures var c := ConfigureClosingFirst(s, filename, true, os).after;
      WriteAll(c, entries).disk.files[c.logFilename] == Concat(entries)
  {
    var s0 := s.(logFile := Closed);
    assert DirectoryReady(s, os);
    assert ConfigureClosingFirst(s, filename, true, os) == Configure(s0, filename, true, os);
    EntriesSinceConfigure(s0, filename, os, entries);
  }

  // ---------------------------------------------------------------- the logger object

  /** The singleton CLogger of the plain variant, with the sinks it writes to. */
  class CLogger {
    var logFilename: string
    var saveToFile: bool
    var logFile: FileStream
    var disk: Disk
    var console: string

    function State(): Sink
      reads this
    {
      Sink(logFilename, saveToFile, logFile, disk, console)
    }

    /** `CLogger()`: file logging off, no stream, starting from the given file system. */
    constructor (disk: Disk)
      requires disk.Valid()
      ensures State() == Initial(disk) && Coherent(State())
    {
      logFilename := "";
      saveToFile := false;
      logFile := Closed;
      this.disk := disk;
      console := "";
    }

    method ConfigureLogging(filename: string, enableFileLogging: bool, os: OsResponses)
      returns (result: Outcome<LoggingError>)
      requires Coherent(State())
      modifies this
      ensures Configured(State(), result) == Configure(old(State()), filename, enableFileLogging, os)
      ensures Coherent(State())
    {
      ConfigureKeepsCoherent(State(), filename, enableFileLogging, os);
      if os.cwd.None? {
        return Fail(WorkingDirectoryError);
      }
      var logDir := os.cwd.value + "/Log";
      if !disk.Exists(logDir) {
        var made := disk.Mkdir(logDir, os.mkdirSucceeds);
        if made.None? {
          return Fail(DirectoryError(logDir));
        }
        disk := made.value;
      }
      logFilename := logDir + "/" + filename;
      saveToFile := enableFileLogging;
      if saveToFile {
        if logFile.Open? {
          // The stream refuses a second open: failbit, still attached to its old file.
          logFile := logFile.(good := false);
        } else {
          var created := disk.OpenForOutput(logFilename, true, os.openSucceeds);
          if created.None? {
            return Fail(FileOpenError(logFilename));
          }
          disk := created.value;
          logFile := Open(logFilename, true);
        }
      }
      return Pass;
    }

    /** The corrected configuration: after the directory checks, the stream is closed before the open. */
    method ConfigureLoggingClosingFirst(filename: string, enableFileLogging: bool, os: OsResponses)
      returns (result: Outcome<LoggingError>)
      requires Coherent(State())
      modifies this
      ensures Configured(State(), result) == ConfigureClosingFirst(old(State()), filename, enableFileLogging, os)
      ensures Coherent(State())
    {
      ConfigureKeepsCoherent(State(), filename, enableFileLogging, os);
      ConfigureKeepsCoherent(State().(logFile := Closed), filename, enableFileLogging, os);
      if os.cwd.None? {
        return Fail(WorkingDirectoryError);
      }
      var logDir := os.cwd.value + "/Log";
      if !disk.Exists(logDir) {
        var made := disk.Mkdir(logDir, os.mkdirSucceeds);
        if made.None? {
          return Fail(DirectoryError(logDir));
        }
        disk := made.value;
      }
      logFilename := logDir + "/" + filename;
      saveToFile := enableFileLogging;
      if saveToFile {
        logFile := Closed;
        var created := disk.OpenForOutput(logFilename, true, os.openSucceeds);
        if created.None? {
          return Fail(FileOpenError(logFilename));
        }
        disk := created.value;
        logFile := Open(logFilename, true);
      }
      return Pass;
    }

    method WriteLog(entry: string)
      requires Coherent(State())
      modifies this
      ensures State() == Write(old(State()), entry)
      ensures Coherent(State())
    {
      WriteKeepsCoherent(State(), entry);
      if saveToFile && logFile.Open? {
        if logFile.good {
          disk := disk.Append(logFile.path, entry);
        }
      }
      console := console + entry;
    }

    method LogMessage(level: ELogLevel, message: string, functionName: string,
                      fileName: string, lineNumber: int32, timestamp: string)
      requires Coherent(State())
      modifies this
      ensures Coherent(State())
      ensures State() == Write(old(State()), RenderMessage(level, message, functionName, fileName, lineNumber, timestamp))
    {
      WriteLog(RenderMessage(level, message, functionName, fileName, lineNumber, timestamp));
    }

    method LogException(message: string, functionName: string, fileName: string,
                        lineNumber: int32, timestamp: string)
      requires Coherent(State())
      modifies this
      ensures Coherent(State())
      ensures State() == Write(old(State()), RenderException(message, functionName, fileName, lineNumber, timestamp))
    {
      WriteLog(RenderException(message, functionName, fileName, lineNumber, timestamp));
    }
  }
}
