/**
 * What the logger sees of its surroundings: an abstract file system, the
 * answers the operating system gives to the calls whose outcome the logger
 * cannot decide, and the errors `configureLogging` throws.
 */
module Environment {
  import opened Wrappers
  import LogFormat

  /** Files by path with their contents, and the set of existing directories. */
  datatype Disk = Disk(files: map<string, string>, dirs: set<string>) {

    /** No path is both a file and a directory. */
    predicate Valid() {
      files.Keys !! dirs
    }

    /** `_access(path, 0) == 0`: a file or a directory exists at `path`. */
    predicate Exists(path: string) {
      path in files || path in dirs
    }

    /** The contents of the file at `path`, empty when there is none. */
    function Content(path: string): string {
      if path in files then files[path] else ""
    }

    /**
     * The directory that `path` names its file in exists. A path without a
     * separator names a file in the working directory, which exists.
     */
    predicate ParentExists(path: string) {
      match LogFormat.LastIndexOfAny(path, LogFormat.Separators)
      case None => true
      case Some(i) => path[..i] in dirs
    }

    /**
     * A file stream can be attached to `path`: it has a final component, names
     * no directory, and sits inside a directory that exists.
     */
    predicate CanOpen(path: string) {
      path != "" && path[|path| - 1] !in LogFormat.Separators && path !in dirs && ParentExists(path)
    }

    /**
     * `_mkdir(dir)`: refused when anything already exists at `dir`; otherwise
     * `succeeds` is the operating system's answer.
     */
    function Mkdir(dir: string, succeeds: bool): (r: Option<Disk>)
      ensures r.Some? <==> succeeds && !Exists(dir)
      ensures r.Some? ==> r.value.files == files && r.value.dirs == dirs + {dir}
      ensures r.Some? && Valid() ==> r.value.Valid()
    {
      if succeeds && !Exists(dir) then Some(this.(dirs := dirs + {dir})) else None
    }

    /**
     * `std::ofstream::open(path, mode)` on a closed stream: with `std::ios::trunc`
     * the file is created or emptied, with `std::ios::app` it is created when
     * missing and otherwise kept. `succeeds` stands for everything else the
     * operating system may refuse (permissions, sharing, quotas).
     */
    function OpenForOutput(path: string, truncate: bool, succeeds: bool): (r: Option<Disk>)
      ensures r.Some? <==> succeeds && CanOpen(path)
      ensures r.Some? ==> r.value.dirs == dirs && path in r.value.files
      ensures r.Some? ==> r.value.files[path] == if truncate then "" else Content(path)
      ensures r.Some? ==> forall p :: p != path ==> (p in r.value.files <==> p in files)
      ensures r.Some? ==> forall p :: p != path && p in files ==> r.value.files[p] == files[p]
      ensures r.Some? && Valid() ==> r.value.Valid()
    {
      if succeeds && CanOpen(path) then
        Some(this.(files := files[path := if truncate then "" else Content(path)]))
      else None
    }

    /** Writing `text` at the end of the file at `path` through a stream attached to it. */
    function Append(path: string, text: string): (r: Disk)
      ensures r.dirs == dirs && path in r.files && r.files[path] == Content(path) + text
      ensures forall p :: p != path ==> (p in r.files <==> p in files)
      ensures forall p :: p != path && p in files ==> r.files[p] == files[p]
      ensures Valid() && path !in dirs ==> r.Valid()
    {
      this.(files := files[path := Content(path) + text])
    }
  }

  /** The `Log` directory `configureLogging` uses under the working directory `cwd`. */
  function LogDir(cwd: string): string {
    cwd + "/Log"
  }

  /** A log file named without separators sits directly in its directory. */
  lemma ParentOfLogFile(d: Disk, dir: string, name: string)
    requires LogFormat.NoSeparator(name)
    ensures d.ParentExists(dir + "/" + name) <==> dir in d.dirs
  {
    var path := dir + "/" + name;
    assert path[|dir|] in LogFormat.Separators;
    var i := LogFormat.LastIndexOfAny(path, LogFormat.Separators).value;
    assert forall j :: |dir| < j < |path| ==> path[j] == name[j - |dir| - 1];
    assert i == |dir|;
    assert path[..i] == dir;
  }

  /**
   * The answers of the calls whose outcome the model leaves open: the working
   * directory `_getcwd` reports (None when it fails), whether `_mkdir` would
   * succeed, and whether opening the log file would succeed.
   */
  datatype OsResponses = OsResponses(cwd: Option<string>, mkdirSucceeds: bool, openSucceeds: bool)

  /** The text a file or the console holds after `entries` are written to it in order. */
  function Concat(entries: seq<string>): string {
    if entries == [] then "" else entries[0] + Concat(entries[1..])
  }

  /** The three `std::runtime_error`s `configureLogging` throws. */
  datatype LoggingError =
    | WorkingDirectoryError
    | DirectoryError(logDir: string)
    | FileOpenError(logFilename: string)

  /** The message each error carries. */
  function What(e: LoggingError): string {
    match e
    case WorkingDirectoryError => "Failed to get current working directory."
    case DirectoryError(dir) => "Unable to create directory: " + dir
    case FileOpenError(path) => "Unable to open log file: " + path
  }

  /** The message tells the three failures apart and names the path involved. */
  lemma WhatIdentifiesError(a: LoggingError, b: LoggingError)
    ensures What(a) == What(b) ==> a == b
  {
    if What(a) == What(b) {
      assert What(a)[0] == What(b)[0];
      match a
      case WorkingDirectoryError =>
      case DirectoryError(x) =>
        assert What(a)[10] == What(b)[10];
        if b.DirectoryError? {
          assert x == What(a)[|"Unable to create directory: "|..];
          assert b.logDir == What(b)[|"Unable to create directory: "|..];
        }
      case FileOpenError(x) =>
        assert What(a)[10] == What(b)[10];
        if b.FileOpenError? {
          assert x == What(a)[|"Unable to open log file: "|..];
          assert b.logFilename == What(b)[|"Unable to open log file: "|..];
        }
    }
  }
}
