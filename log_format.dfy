/**
 * The pure text helpers the two C++ variants of CLogger share: severity labels,
 * basename extraction, decimal rendering of line numbers, and the small searches
 * that decoding a rendered log line needs.
 */
module LogFormat {
  import opened Wrappers

  /** The severities of `enum class ELogLevel`. */
  datatype ELogLevel = LogDebug | LogInfo | LogWarning | LogError

  /** The C++ `int` that carries `__LINE__` into the logging calls. */
  newtype int32 = x: int | -0x8000_0000 <= x < 0x8000_0000

  /** A rendering of a log line's recoverable header fields. */
  datatype Header = Header(level: ELogLevel, timestamp: string, lineNumber: int)

  // ---------------------------------------------------------------- searching

  /** The first index of `c` in `s`, like `std::string::find`; None plays `npos`. */
  function IndexOf(s: string, c: char): (r: Option<nat>)
    ensures r.None? <==> forall k :: 0 <= k < |s| ==> s[k] != c
    ensures r.Some? ==> r.value < |s| && s[r.value] == c
    ensures r.Some? ==> forall k :: 0 <= k < r.value ==> s[k] != c
  {
    if s == [] then None
    else if s[0] == c then Some(0)
    else match IndexOf(s[1..], c)
      case None => None
      case Some(i) => Some(i + 1)
  }

  /** The last index of `s` holding a character of `cs`, like `std::string::find_last_of`. */
  function LastIndexOfAny(s: string, cs: set<char>): (r: Option<nat>)
    ensures r.None? <==> forall k :: 0 <= k < |s| ==> s[k] !in cs
    ensures r.Some? ==> r.value < |s| && s[r.value] in cs
    ensures r.Some? ==> forall k :: r.value < k < |s| ==> s[k] !in cs
  {
    if s == [] then None
    else if s[|s| - 1] in cs then Some(|s| - 1)
    else LastIndexOfAny(s[..|s| - 1], cs)
  }

  // ---------------------------------------------------------------- basenames

  /** The two path separators `extractFileName` searches for. */
  const Separators: set<char> := {'/', '\\'}

  predicate NoSeparator(s: string) {
    forall k :: 0 <= k < |s| ==> s[k] !in Separators
  }

  /**
   * `extractFileName`: the text after the last `/` or `\`, or the whole path
   * when it holds neither. The result is the longest separator-free suffix.
   */
  function ExtractFileName(filePath: string): (name: string)
    ensures NoSeparator(filePath) ==> name == filePath
    ensures |name| <= |filePath| && name == filePath[|filePath| - |name|..]
    ensures NoSeparator(name)
    ensures |name| < |filePath| ==> filePath[|filePath| - |name| - 1] in Separators
  {
    match LastIndexOfAny(filePath, Separators)
    case None => filePath
    case Some(i) => filePath[i + 1..]
  }

  /** An independent description of "the final path component of `path`". */
  ghost predicate IsBaseName(name: string, path: string) {
    && |name| <= |path|
    && name == path[|path| - |name|..]
    && NoSeparator(name)
    && (|name| < |path| ==> path[|path| - |name| - 1] in Separators)
  }

  /** The final path component is unique, and ExtractFileName computes exactly it. */
  lemma BaseNameUnique(path: string, name: string)
    ensures IsBaseName(name, path) <==> name == ExtractFileName(path)
  {
    var b := ExtractFileName(path);
    if IsBaseName(name, path) {
      // Both are separator-free suffixes, so neither can end before the other's separator.
      assert forall j :: |path| - |b| <= j < |path| ==> path[j] == b[j - (|path| - |b|)];
      assert forall j :: |path| - |name| <= j < |path| ==> path[j] == name[j - (|path| - |name|)];
      assert |name| == |b|;
    }
  }

  /** Extracting twice changes nothing. */
  lemma ExtractFileNameIdempotent(path: string)
    ensures ExtractFileName(ExtractFileName(path)) == ExtractFileName(path)
  {
  }

  lemma BaseNameExample(path: string, name: string)
    requires |name| < |path| && NoSeparator(name)
    requires path[|path| - |name|..] == name && path[|path| - |name| - 1] in Separators
    ensures ExtractFileName(path) == name
  {
    BaseNameUnique(path, name);
  }

  /** Sample paths: mixed, forward and backward separators give the last component, and a bare name is kept. */
  lemma ExtractFileNameExamples()
    ensures ExtractFileName("a/b\\c.txt") == "c.txt"
    ensures ExtractFileName("a/b/c.txt") == "c.txt"
    ensures ExtractFileName("a\\b\\c.txt") == "c.txt"
    ensures ExtractFileName("c.txt") == "c.txt"
  {
    BaseNameExample("a/b\\c.txt", "c.txt");
    BaseNameExample("a/b/c.txt", "c.txt");
    BaseNameExample("a\\b\\c.txt", "c.txt");
  }

  // ---------------------------------------------------------------- severities

  /** `logLevelToString`: the upper-case label of a severity. */
  function LogLevelToString(level: ELogLevel): (text: string)
    ensures text != "UNKNOWN"
    ensures 0 < |text| && ']' !in text && '\n' !in text
  {
    match level
    case LogDebug => "DEBUG"
    case LogInfo => "INFO"
    case LogWarning => "WARNING"
    case LogError => "ERROR"
  }

  /** The inverse of LogLevelToString on its four labels. */
  function LevelOfLabel(text: string): Option<ELogLevel> {
    if text == "DEBUG" then Some(LogDebug)
    else if text == "INFO" then Some(LogInfo)
    else if text == "WARNING" then Some(LogWarning)
    else if text == "ERROR" then Some(LogError)
    else None
  }

  /** A label names exactly one severity, and every severity has its own label. */
  lemma LabelsIdentifyLevels(text: string, level: ELogLevel)
    ensures LevelOfLabel(text) == Some(level) <==> text == LogLevelToString(level)
  {
  }

  /** Different severities get different labels. */
  lemma LabelsDistinct(a: ELogLevel, b: ELogLevel)
    ensures a != b ==> LogLevelToString(a) != LogLevelToString(b)
  {
    LabelsIdentifyLevels(LogLevelToString(a), a);
    LabelsIdentifyLevels(LogLevelToString(a), b);
  }

  // ---------------------------------------------------------------- decimal text

  predicate IsDigit(c: char) {
    '0' <= c <= '9'
  }

  predicate AllDigits(s: string) {
    forall k :: 0 <= k < |s| ==> IsDigit(s[k])
  }

  function DigitChar(d: nat): (c: char)
    requires d < 10
    ensures IsDigit(c)
  {
    ('0' as int + d) as char
  }

  /** The decimal text of `n`, with no leading zero. */
  function NatString(n: nat): (r: string)
    ensures 0 < |r| && AllDigits(r)
    ensures r[0] == '0' <==> n == 0
  {
    if n < 10 then [DigitChar(n)]
    else NatString(n / 10) + [DigitChar(n % 10)]
  }

  /** The number a string of digits denotes. */
  function ParseNat(s: string): nat
    requires AllDigits(s)
  {
    if s == [] then 0
    else ParseNat(s[..|s| - 1]) * 10 + (s[|s| - 1] as int - '0' as int)
  }

  lemma {:induction false} ParseNatString(n: nat)
    ensures ParseNat(NatString(n)) == n
  {
    if n >= 10 {
      var r := NatString(n);
      assert r[..|r| - 1] == NatString(n / 10);
      ParseNatString(n / 10);
    }
  }

  /**
   * How `std::ostream << int` renders a line number: a minus sign for
   * negatives, then digits with no leading zero (zero itself is `0`).
   */
  function DecimalString(n: int): (r: string)
    ensures 0 < |r|
    ensures r[0] == '-' <==> n < 0
    ensures forall k :: 0 <= k < |r| ==> IsDigit(r[k]) || (k == 0 && r[k] == '-')
    ensures n < 0 ==> 1 < |r| && r[1] != '0'
    ensures 0 <= n && r[0] == '0' ==> r == "0"
  {
    if n < 0 then "-" + NatString(-n) else NatString(n)
  }

  /** Reads back what DecimalString writes; None for anything else. */
  function ParseDecimal(s: string): Option<int> {
    if |s| > 1 && s[0] == '-' && AllDigits(s[1..]) then Some(0 - ParseNat(s[1..]) as int)
    else if |s| > 0 && AllDigits(s) then Some(ParseNat(s))
    else None
  }

  lemma DecimalRoundTrip(n: int)
    ensures ParseDecimal(DecimalString(n)) == Some(n)
  {
    if n < 0 {
      assert DecimalString(n)[1..] == NatString(-n);
      ParseNatString(-n);
    } else {
      ParseNatString(n);
    }
  }

  /** Decimal text never holds a colon or a newline. */
  lemma DecimalStringPlain(n: int)
    ensures ':' !in DecimalString(n) && '\n' !in DecimalString(n) && ')' !in DecimalString(n)
  {
  }

  // ---------------------------------------------------------------- timestamps

  /**
   * What `strftime(buffer, 20, "%Y-%m-%d %H:%M:%S", ...)` in `getCurrentTime`
   * can produce: at most 19 characters, all digits, dashes, colons or spaces.
   */
  predicate WellFormedTimestamp(t: string) {
    |t| <= 19 && forall k :: 0 <= k < |t| ==> IsDigit(t[k]) || t[k] == '-' || t[k] == ':' || t[k] == ' '
  }

  // ---------------------------------------------------------------- decoding

  /** Splits `"[" + inside + "]" + rest` at the first closing bracket. */
  function BracketField(s: string): Option<(string, string)> {
    if |s| == 0 || s[0] != '[' then None
    else match IndexOf(s[1..], ']')
      case None => None
      case Some(i) => Some((s[1..i + 1], s[i + 2..]))
  }

  lemma BracketFieldOf(inside: string, rest: string)
    requires ']' !in inside
    ensures BracketField("[" + inside + "]" + rest) == Some((inside, rest))
  {
    var s := "[" + inside + "]" + rest;
    var t := s[1..];
    assert t == inside + "]" + rest;
    assert t[|inside|] == ']';
    var i := IndexOf(t, ']').value;
    assert forall k :: 0 <= k < |inside| ==> t[k] == inside[k];
    assert i == |inside|;
    assert s[1..i + 1] == inside;
    assert s[i + 2..] == rest;
  }

  /** Reads the line number back from a line ending in `":" + digits + ")\n"`. */
  function DecodeLineNumber(line: string): Option<int> {
    if |line| < 2 || line[|line| - 2..] != ")\n" then None
    else
      var body := line[..|line| - 2];
      match LastIndexOfAny(body, {':'})
      case None => None
      case Some(k) => ParseDecimal(body[k + 1..])
  }

  lemma LineNumberOf(prefix: string, n: int)
    ensures DecodeLineNumber(prefix + ":" + DecimalString(n) + ")\n") == Some(n)
  {
    var d := DecimalString(n);
    var line := prefix + ":" + d + ")\n";
    var body := line[..|line| - 2];
    assert line[|line| - 2..] == ")\n";
    assert body == prefix + ":" + d;
    assert body[|prefix|] == ':';
    var k := LastIndexOfAny(body, {':'}).value;
    assert forall j :: |prefix| < j < |body| ==> body[j] == d[j - |prefix| - 1];
    assert k == |prefix|;
    assert body[k + 1..] == d;
    DecimalRoundTrip(n);
  }

  /** A single, newline-terminated line of text. */
  predicate OneLine(s: string) {
    0 < |s| && s[|s| - 1] == '\n' && '\n' !in s[..|s| - 1]
  }
}
