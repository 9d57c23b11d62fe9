/**
 * The application-framework (MFC) variant of CLogger: lines lead with the
 * timestamp and carry a per-severity marker, `configureLogging` only creates
 * or empties the file, and every write reopens the file in append mode.
 */
module MfcLogger {
  import opened Wrappers
  import opened LogFormat
  import opened Environment

  // ---------------------------------------------------------------- rendering

  /** The decoration `logMessage`'s `switch` puts in front of the message. */
  function Marker(level: ELogLevel): (m: string)
    ensures '\n' !in m && 0 < |m|
  {
    match level
    case LogDebug => "==> "
    case LogInfo => "\t--> "
    case LogWarning => "** "
    case LogError => "!! "
  }

  /** Each severity has its own marker. */
  lemma MarkersDistinct(a: ELogLevel, b: ELogLevel)
    ensures a != b ==> Marker(a) != Marker(b)
  {
  }

  /**
   * The frame of every line: `[TIMESTAMP]\t [LABEL]\t`, the marker, a body
   * that ends with the basename, then `:`, the decimal line number, `)` and a
   * newline.
   */
  function Frame(timestamp: string, level: ELogLevel, body: string, n: int): string {
    "[" + timestamp + "]\t [" + LogLevelToString(level) + "]\t" + Marker(level) + body
      + ":" + DecimalString(n) + ")\n"
  }

  /** A frame opens with the bracketed timestamp and reads back the line number it ends with. */
  lemma FrameEnds(timestamp: string, level: ELogLevel, body: string, n: int)
    requires ']' !in timestamp
    ensures BracketField(Frame(timestamp, level, body, n)).Some?
    ensures BracketField(Frame(timestamp, level, body, n)).value.0 == timestamp
    ensures DecodeLineNumber(Frame(timestamp, level, body, n)) == Some(n)
  {
    var d := DecimalString(n);
    var front := "[" + timestamp + "]\t [" + LogLevelToString(level) + "]\t" + Marker(level) + body;
    var rest := "\t [" + LogLevelToString(level) + "]\t" + Marker(level) + body + ":" + d + ")\n";
    assert Frame(timestamp, level, body, n) == "[" + timestamp + "]" + rest;
    BracketFieldOf(timestamp, rest);
    assert Frame(timestamp, level, body, n) == front + ":" + d + ")\n";
    LineNumberOf(front, n);
  }

  /** The line `logMessage` builds; `timestamp` stands for `getCurrentTime()`. */
  function RenderMessage(level: ELogLevel, message: string, functionName: string,
                         fileName: string, lineNumber: int32, timestamp: string): (line: string)
    ensures ']' !in timestamp ==> BracketField(line).Some? && BracketField(line).value.0 == timestamp
    ensures ']' !in timestamp ==> DecodeLineNumber(line) == Some(lineNumber as int)
  {
    var body := message + " (Log from " + functionName + " at " + ExtractFileName(fileName);
    if ']' !in timestamp then FrameEnds(timestamp, level, body, lineNumber as int); Frame(timestamp, level, body, lineNumber as int)
    else Frame(timestamp, level, body, lineNumber as int)
  }

  /**
   * Reads the timestamp and the severity from the front of a line, checking
   * that the marker after the label is the one for that severity.
   */
  function DecodeLead(line: string): Option<(string, ELogLevel)> {
    match BracketField(line)
    case None => None
    case Some((timestamp, rest)) =>
      if |rest| < 2 || rest[..2] != "\t " then None
      else match BracketField(rest[2..])
        case None => None
        case Some((text, after)) =>
          match LevelOfLabel(text)
          case None => None
          case Some(level) =>
            var lead := "\t" + Marker(level);
            if |after| < |lead| || after[..|lead|] != lead then None
            else Some((timestamp, level))
  }

  /** Reads the timestamp, the severity and the line number back from a line. */
  function DecodeHeader(line: string): Option<Header> {
    match DecodeLead(line)
    case None => None
    case Some((timestamp, level)) =>
      match DecodeLineNumber(line)
      case None => None
      case Some(n) => Some(Header(level, timestamp, n))
  }

  lemma DecodeLeadOf(timestamp: string, level: ELogLevel, tail: string)
    requires WellFormedTimestamp(timestamp)
    ensures DecodeLead("[" + timestamp + "]\t [" + LogLevelToString(level) + "]\t" + Marker(level) + tail)
            == Some((timestamp, level))
  {
    var text := LogLevelToString(level);
    var lead := "\t" + Marker(level);
    var after := lead + tail;
    var inner := "[" + text + "]" + after;
    var rest := "\t " + inner;
    var line := "[" + timestamp + "]\t [" + text + "]\t" + Marker(level) + tail;
    assert line == "[" + timestamp + "]" + rest;
    assert ']' !in timestamp;
    BracketFieldOf(timestamp, rest);
    assert rest[..2] == "\t " && rest[2..] == inner;
    BracketFieldOf(text, after);
    LabelsIdentifyLevels(text, level);
    assert after[..|lead|] == lead;
  }

  /** The timestamp, the severity and the line number of a framed line can be read back. */
  lemma DecodeFrame(timestamp: string, level: ELogLevel, body: string, n: int)
    requires WellFormedTimestamp(timestamp)
    ensures DecodeHeader(Frame(timestamp, level, body, n)) == Some(Header(level, timestamp, n))
  {
    var text := LogLevelToString(level);
    var d := DecimalString(n);
    var line := Frame(timestamp, level, body, n);
    var front := "[" + timestamp + "]\t [" + text + "]\t" + Marker(level);
    assert line == front + (body + ":" + d + ")\n");
    DecodeLeadOf(timestamp, level, body + ":" + d + ")\n");
    assert line == (front + body) + ":" + d + ")\n";
    LineNumberOf(front + body, n);
  }

  lemma RenderMessageDecodes(level: ELogLevel, message: string, functionName: string,
                             fileName: string, lineNumber: int32, timestamp: string)
    requires WellFormedTimestamp(timestamp)
    ensures DecodeHeader(RenderMessage(level, message, functionName, fileName, lineNumber, timestamp))
            == Some(Header(level, timestamp, lineNumber as int))
  {
    DecodeFrame(timestamp, level,
                message + " (Log from " + functionName + " at " + ExtractFileName(fileName),
                lineNumber as int);
  }

  /** A framed line whose body holds no newline is exactly one newline-terminated line. */
  lemma FrameOneLine(timestamp: string, level: ELogLevel, body: string, n: int)
    requires '\n' !in body && WellFormedTimestamp(timestamp)
    ensures OneLine(Frame(timestamp, level, body, n))
  {
    var line := Frame(timestamp, level, body, n);
    var front := "[" + timestamp + "]\t [" + LogLevelToString(level) + "]\t" + Marker(level) + body
      + ":" + DecimalString(n) + ")";
    assert line == front + "\n";
    assert line[..|line| - 1] == front;
    DecimalStringPlain(n);
  }

  /** A message without newlines is logged as exactly one newline-terminated line. */
  lemma RenderMessageOneLine(level: ELogLevel, message: string, functionName: string,
                             fileName: string, lineNumber: int32, timestamp: string)
    requires '\n' !in message && '\n' !in functionName && '\n' !in fileName
    requires WellFormedTimestamp(timestamp)
    ensures OneLine(RenderMessage(level, message, functionName, fileName, lineNumber, timestamp))
  {
    var name := ExtractFileName(fileName);
    assert '\n' !in name by {
      assert forall k :: 0 <= k < |name| ==> name[k] == fileName[|fileName| - |name| + k];
    }
    FrameOneLine(timestamp, level, message + " (Log from " + functionName + " at " + name, lineNumber as int);
  }

  // ---------------------------------------------------------------- sink state

  /** The logger's fields together with the file system and the console it writes to. */
  datatype Sink = Sink(logFilename: string, saveToFile: bool, disk: Disk, console: string)

  /** The state after `configureLogging`, and whether it returned or threw. */
  datatype Configured = Configured(after: Sink, result: Outcome<LoggingError>)

  /** The freshly constructed logger: no file name, file logging off, an empty console. */
  function Initial(disk: Disk): Sink {
    Sink("", false, disk, "")
  }

  /** `stat` and the `S_IFDIR` test, then `_mkdir` when `logDir` is missing or no directory. */
  function Bootstrap(disk: Disk, logDir: string, mkdirSucceeds: bool): (r: Option<Disk>)
    ensures r.None? <==> logDir !in disk.dirs && (!mkdirSucceeds || logDir in disk.files)
    ensures r.Some? ==> logDir in r.value.dirs && r.value.files == disk.files && disk.dirs <= r.value.dirs
    ensures r.Some? ==> r.value.dirs <= disk.dirs + {logDir}
  {
    if logDir in disk.dirs then Some(disk) else disk.Mkdir(logDir, mkdirSucceeds)
  }

  /**
   * `configureLogging` (C++14 branch): the directory check, the two fields,
   * and, with file logging on, a truncating open that is closed again at once.
   */
  function Configure(s: Sink, filename: string, enableFileLogging: bool, os: OsResponses): (c: Configured)
    ensures c.after.console == s.console
    ensures c.result.Pass? ==> os.cwd.Some?
    ensures c.result.Pass? ==> c.after.logFilename == LogDir(os.cwd.value) + "/" + filename
    ensures c.result.Pass? ==> c.after.saveToFile == enableFileLogging
    ensures c.result.Pass? && enableFileLogging ==> c.after.disk.Content(c.after.logFilename) == ""
    ensures c.result.Fail? && !c.result.error.FileOpenError? ==> c.after == s
  {
    match os.cwd
    case None => Configured(s, Fail(WorkingDirectoryError))
    case Some(cwd) =>
      match Bootstrap(s.disk, LogDir(cwd), os.mkdirSucceeds)
      case None => Configured(s, Fail(DirectoryError(LogDir(cwd))))
      case Some(disk) =>
        var path := LogDir(cwd) + "/" + filename;
        var s1 := s.(logFilename := path, saveToFile := enableFileLogging, disk := disk);
        if !enableFileLogging then Configured(s1, Pass)
        else match disk.OpenForOutput(path, true, os.openSucceeds)
          case None => Configured(s1, Fail(FileOpenError(path)))
          case Some(emptied) => Configured(s1.(disk := emptied), Pass)
  }

  /**
   * `writeLog`: open `logFilename` in append mode (which creates a missing
   * file whether or not file logging is on), append the entry if the open
   * succeeded and file logging is on, and always append it to the console.
   */
  function Write(s: Sink, entry: string, appendSucceeds: bool): (t: Sink)
    ensures t.console == s.console + entry
    ensures t.logFilename == s.logFilename && t.saveToFile == s.saveToFile
    ensures t.disk.dirs == s.disk.dirs
    ensures forall p :: p != s.logFilename && p in s.disk.files ==> p in t.disk.files && t.disk.files[p] == s.disk.files[p]
  {
    match s.disk.OpenForOutput(s.logFilename, false, appendSucceeds)
    case None => s.(console := s.console + entry)
    case Some(d) =>
      s.(disk := if s.saveToFile then d.Append(s.logFilename, entry) else d,
         console := s.console + entry)
  }

  /** Several `writeLog` calls in a row, each with its own answer to the append-open. */
  function WriteAll(s: Sink, entries: seq<string>, appendOks: seq<bool>): Sink
    requires |entries| == |appendOks|
    decreases |entries|
  {
    if entries == [] then s
    else WriteAll(Write(s, entries[0], appendOks[0]), entries[1..], appendOks[1..])
  }

  /** The entries whose append-open succeeded, in order. */
  function Kept(entries: seq<string>, appendOks: seq<bool>): string
    requires |entries| == |appendOks|
    decreases |entries|
  {
    if entries == [] then ""
    else (if appendOks[0] then entries[0] else "") + Kept(entries[1..], appendOks[1..])
  }

  // ---------------------------------------------------------------- properties of configuration

  /**
   * The first two failures are thrown before any field or file changes; a
   * regular file where `Log` should be makes `_mkdir` fail too.
   */
  lemma ConfigureEarlyFailures(s: Sink, filename: string, enableFileLogging: bool, os: OsResponses)
    ensures var c := Configure(s, filename, enableFileLogging, os);
      && (os.cwd.None? <==> c.result == Fail(WorkingDirectoryError))
      && (os.cwd.Some? ==>
            (c.result == Fail(DirectoryError(LogDir(os.cwd.value)))
             <==> LogDir(os.cwd.value) !in s.disk.dirs
                  && (!os.mkdirSucceeds || LogDir(os.cwd.value) in s.disk.files)))
      && (c.result.Fail? && !c.result.error.FileOpenError? ==> c.after == s)
  {
  }

  /**
   * Once the directory is in place it is a directory, and the fields are set
   * whether or not the open that follows throws; the console is untouched.
   */
  lemma ConfigureSetsFields(s: Sink, filename: string, enableFileLogging: bool, os: OsResponses)
    requires os.cwd.Some?
    requires Configure(s, filename, enableFileLogging, os).result != Fail(DirectoryError(LogDir(os.cwd.value)))
    ensures var c := Configure(s, filename, enableFileLogging, os);
      && c.after.logFilename == LogDir(os.cwd.value) + "/" + filename
      && c.after.saveToFile == enableFileLogging
      && c.after.console == s.console
      && LogDir(os.cwd.value) in c.after.disk.dirs
  {
  }

  /**
   * With file logging on, configuring either throws FileOpenError or leaves
   * an empty file at `logFilename`; apart from the `Log` directory and that
   * file, the file system is as it was, and no handle is kept.
   */
  lemma ConfigureTruncates(s: Sink, filename: string, os: OsResponses)
    requires os.cwd.Some?
    requires Configure(s, filename, true, os).result != Fail(DirectoryError(LogDir(os.cwd.value)))
    ensures Bootstrap(s.disk, LogDir(os.cwd.value), os.mkdirSucceeds).Some?
    ensures var d := Bootstrap(s.disk, LogDir(os.cwd.value), os.mkdirSucceeds).value;
      var c := Configure(s, filename, true, os);
      && (c.result.Pass? <==> os.openSucceeds && d.CanOpen(c.after.logFilename))
      && (c.result.Fail? ==> c.result == Fail(FileOpenError(c.after.logFilename)) && c.after.disk == d)
      && (c.result.Pass? ==> c.after.disk == Disk(d.files[c.after.logFilename := ""], d.dirs))
  {
  }

  /**
   * For a file name without separators, the open can succeed exactly when the
   * name is non-empty and no directory already sits at the log file's path.
   */
  lemma ConfigureTruncatesBareName(s: Sink, filename: string, os: OsResponses)
    requires NoSeparator(filename)
    requires os.cwd.Some?
    requires Configure(s, filename, true, os).result != Fail(DirectoryError(LogDir(os.cwd.value)))
    ensures var c := Configure(s, filename, true, os);
      && (c.result.Pass? <==> os.openSucceeds && filename != "" && c.after.logFilename !in s.disk.dirs)
      && (c.result.Pass? ==> c.after.logFilename in c.after.disk.files
                             && c.after.disk.files[c.after.logFilename] == "")
  {
    var dir := LogDir(os.cwd.value);
    var disk := Bootstrap(s.disk, dir, os.mkdirSucceeds).value;
    var path := dir + "/" + filename;
    ParentOfLogFile(disk, dir, filename);
    assert |path| > |dir| && path != dir;
    assert filename != "" ==> path[|path| - 1] == filename[|filename| - 1];
  }

  /** With file logging off, configuring changes no file. */
  lemma ConfigureDisabledKeepsFiles(s: Sink, filename: string, os: OsResponses)
    ensures var c := Configure(s, filename, false, os);
      c.after.disk.files == s.disk.files && !(c.result.Fail? && c.result.error.FileOpenError?)
  {
  }

  lemma ConfigureKeepsValid(s: Sink, filename: string, enableFileLogging: bool, os: OsResponses)
    requires s.disk.Valid()
    ensures Configure(s, filename, enableFileLogging, os).after.disk.Valid()
  {
  }

  // ---------------------------------------------------------------- properties of writing

  /**
   * `writeLog` always appends the entry to the console and keeps both fields;
   * with file logging on and a successful append-open the file at
   * `logFilename` gets the entry at its end and nothing else changes.
   */
  lemma WriteSinks(s: Sink, entry: string, appendSucceeds: bool)
    ensures var t := Write(s, entry, appendSucceeds);
      && t.console == s.console + entry
      && t.logFilename == s.logFilename && t.saveToFile == s.saveToFile
      && t.disk.dirs == s.disk.dirs
      && (s.saveToFile && appendSucceeds && s.disk.CanOpen(s.logFilename) ==>
            t.disk.files == s.disk.files[s.logFilename := s.disk.Content(s.logFilename) + entry])
      && (!(appendSucceeds && s.disk.CanOpen(s.logFilename)) ==> t.disk == s.disk)
  {
  }

  /**
   * With file logging off, a write keeps every file's contents; at most it
   * creates an empty file at `logFilename`.
   */
  lemma DisabledWriteCreatesAtMostEmptyFile(s: Sink, entry: string, appendSucceeds: bool)
    requires !s.saveToFile
    ensures var t := Write(s, entry, appendSucceeds);
      && t.disk.dirs == s.disk.dirs
      && (forall p :: p in s.disk.files ==> p in t.disk.files && t.disk.files[p] == s.disk.files[p])
      && (forall p :: p in t.disk.files && p !in s.disk.files ==> p == s.logFilename && t.disk.files[p] == "")
  {
  }

  lemma WriteKeepsValid(s: Sink, entry: string, appendSucceeds: bool)
    requires s.disk.Valid()
    ensures Write(s, entry, appendSucceeds).disk.Valid()
  {
  }

  /** Before any configuration `logFilename` is empty, so no write reaches the file system. */
  lemma UnconfiguredWritesOnlyConsole(disk: Disk, entry: string, appendSucceeds: bool)
    ensures Write(Initial(disk), entry, appendSucceeds) == Initial(disk).(console := entry)
  {
  }

  /** The console receives every entry, in order, and the fields stay as they were. */
  lemma {:induction false} WriteAllConsole(s: Sink, entries: seq<string>, appendOks: seq<bool>)
    requires |entries| == |appendOks|
    ensures WriteAll(s, entries, appendOks).console == s.console + Concat(entries)
    ensures WriteAll(s, entries, appendOks).logFilename == s.logFilename
    ensures WriteAll(s, entries, appendOks).saveToFile == s.saveToFile
    ensures WriteAll(s, entries, appendOks).disk.dirs == s.disk.dirs
    decreases |entries|
  {
    if entries != [] {
      WriteAllConsole(Write(s, entries[0], appendOks[0]), entries[1..], appendOks[1..]);
    }
  }

  /** With file logging on and an openable file, the file gains exactly the kept entries. */
  lemma {:induction false} WriteAllAppends(s: Sink, entries: seq<string>, appendOks: seq<bool>)
    requires |entries| == |appendOks|
    requires s.saveToFile && s.disk.CanOpen(s.logFilename)
    ensures s.logFilename in WriteAll(s, entries, appendOks).disk.files || Kept(entries, appendOks) == ""
    ensures WriteAll(s, entries, appendOks).disk.Content(s.logFilename)
            == s.disk.Content(s.logFilename) + Kept(entries, appendOks)
    decreases |entries|
  {
    if entries != [] {
      var t := Write(s, entries[0], appendOks[0]);
      WriteAllAppends(t, entries[1..], appendOks[1..]);
    }
  }

  /**
   * After a successful configuration with file logging on, whatever came
   * before, the file holds exactly the entries written since whose
   * append-open succeeded, in order.
   */
  lemma EntriesSinceConfigure(s: Sink, filename: string, os: OsResponses,
                              entries: seq<string>, appendOks: seq<bool>)
    requires |entries| == |appendOks|
    requires Configure(s, filename, true, os).result.Pass?
    ensures var c := Configure(s, filename, true, os).after;
      WriteAll(c, entries, appendOks).disk.Content(c.logFilename) == Kept(entries, appendOks)
    ensures var c := Configure(s, filename, true, os).after;
      WriteAll(c, entries, appendOks).console == s.console + Concat(entries)
  {
    var c := Configure(s, filename, true, os).after;
    WriteAllAppends(c, entries, appendOks);
    WriteAllConsole(c, entries, appendOks);
  }

  /**
   * Re-configuring with file logging on discards what was logged before, even
   * into the same file: only the entries written after the latest
   * configuration remain.
   */
  lemma ReconfigureDiscardsEarlierEntries(s: Sink, first: string, os1: OsResponses,
                                          early: seq<string>, earlyOks: seq<bool>,
                                          second: string, os2: OsResponses,
                                          later: seq<string>, laterOks: seq<bool>)
    requires |early| == |earlyOks| && |later| == |laterOks|
    requires Configure(s, first, true, os1).result.Pass?
    requires Configure(WriteAll(Configure(s, first, true, os1).after, early, earlyOks),
                       second, true, os2).result.Pass?
    ensures var mid := WriteAll(Configure(s, first, true, os1).after, early, earlyOks);
      var c := Configure(mid, second, true, os2).after;
      WriteAll(c, later, laterOks).disk.Content(c.logFilename) == Kept(later, laterOks)
  {
    var mid := WriteAll(Configure(s, first, true, os1).after, early, earlyOks);
    EntriesSinceConfigure(mid, second, os2, later, laterOks);
  }

  // ---------------------------------------------------------------- writing with file logging off

  /**
   * As written, a write with file logging off still opens `logFilename` in
   * append mode, so after `configureLogging(filename, false)` the first write
   * leaves an empty file behind wherever it can be created.
   */
  lemma DisabledWriteCreatesFile(s: Sink, filename: string, os: OsResponses, entry: string)
    requires NoSeparator(filename) && filename != ""
    requires Configure(s, filename, false, os).result.Pass?
    requires var c := Configure(s, filename, false, os).after;
      c.logFilename !in s.disk.files && c.logFilename !in s.disk.dirs
    ensures var c := Configure(s, filename, false, os).after;
      c.logFilename !in c.disk.files && c.logFilename in Write(c, entry, true).disk.files
    ensures var c := Configure(s, filename, false, os).after;
      Write(c, entry, true).disk.files[c.logFilename] == ""
  {
    var c := Configure(s, filename, false, os).after;
    var dir := LogDir(os.cwd.value);
    ParentOfLogFile(c.disk, dir, filename);
    assert c.logFilename[|c.logFilename| - 1] == filename[|filename| - 1];
  }

  /** The evident intent: with file logging off, do not touch the file system at all. */
  function WriteOnlyWhenEnabled(s: Sink, entry: string, appendSucceeds: bool): Sink {
    if s.saveToFile then Write(s, entry, appendSucceeds) else s.(console := s.console + entry)
  }

  /**
   * The corrected write leaves the file system exactly as it was when file
   * logging is off, and behaves like `writeLog` when it is on.
   */
  lemma WriteOnlyWhenEnabledSinks(s: Sink, entry: string, appendSucceeds: bool)
    ensures var t := WriteOnlyWhenEnabled(s, entry, appendSucceeds);
      && t.console == s.console + entry
      && t.logFilename == s.logFilename && t.saveToFile == s.saveToFile
      && (!s.saveToFile ==> t.disk == s.disk)
      && (s.saveToFile ==> t == Write(s, entry, appendSucceeds))
  {
  }

  // ---------------------------------------------------------------- the logger object

  /** The singleton CLogger of the framework variant, with the sinks it writes to. */
  class CLogger {
    var logFilename: string
    var saveToFile: bool
    var disk: Disk
    var console: string

    function State(): Sink
      reads this
    {
      Sink(logFilename, saveToFile, disk, console)
    }

    /** `CLogger()`: file logging off, no file name, starting from the given file system. */
    constructor (disk: Disk)
      requires disk.Valid()
      ensures State() == Initial(disk) && this.disk.Valid()
    {
      logFilename := "";
      saveToFile := false;
      this.disk := disk;
      console := "";
    }

    method ConfigureLogging(filename: string, enableFileLogging: bool, os: OsResponses)
      returns (result: Outcome<LoggingError>)
      requires disk.Valid()
      modifies this
      ensures Configured(State(), result) == Configure(old(State()), filename, enableFileLogging, os)
      ensures disk.Valid()
    {
      ConfigureKeepsValid(State(), filename, enableFileLogging, os);
      if os.cwd.None? {
        return Fail(WorkingDirectoryError);
      }
      var logDir := os.cwd.value + "/Log";
      if logDir !in disk.dirs {
        var made := disk.Mkdir(logDir, os.mkdirSucceeds);
        if made.None? {
          return Fail(DirectoryError(logDir));
        }
        disk := made.value;
      }
      logFilename := logDir + "/" + filename;
      saveToFile := enableFileLogging;
      if saveToFile {
        var emptied := disk.OpenForOutput(logFilename, true, os.openSucceeds);
        if emptied.None? {
          return Fail(FileOpenError(logFilename));
        }
        disk := emptied.value;
      }
      return Pass;
    }

    method WriteLog(entry: string, appendSucceeds: bool)
      requires disk.Valid()
      modifies this
      ensures State() == Write(old(State()), entry, appendSucceeds)
      ensures disk.Valid()
    {
      WriteKeepsValid(State(), entry, appendSucceeds);
      var appended := disk.OpenForOutput(logFilename, false, appendSucceeds);
      if appended.Some? {
        disk := appended.value;
        if saveToFile {
          disk := disk.Append(logFilename, entry);
        }
      }
      console := console + entry;
    }

    /** The corrected `writeLog`: the file is opened only when file logging is on. */
    method WriteLogOnlyWhenEnabled(entry: string, appendSucceeds: bool)
      requires disk.Valid()
      modifies this
      ensures disk.Valid()
      ensures State() == WriteOnlyWhenEnabled(old(State()), entry, appendSucceeds)
    {
      if saveToFile {
        WriteLog(entry, appendSucceeds);
      } else {
        console := console + entry;
      }
    }

    method LogMessage(level: ELogLevel, message: string, functionName: string,
                      fileName: string, lineNumber: int32, timestamp: string, appendSucceeds: bool)
      requires disk.Valid()
      modifies this
      ensures disk.Valid()
      ensures State() == Write(old(State()),
                               RenderMessage(level, message, functionName, fileName, lineNumber, timestamp),
                               appendSucceeds)
    {
      WriteLog(RenderMessage(level, message, functionName, fileName, lineNumber, timestamp), appendSucceeds);
    }
  }
}
