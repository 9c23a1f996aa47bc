/**
 * Logging helpers of src/simbot/utils_logging.py: the name-and-level filter,
 * the logger-name rule of get_new_logger, and the level-name parser.
 */
module UtilsLogging {
  import opened Wrappers
  import opened Text

  /** The dotted-name namespace that holds the project's own loggers. */
  const LOGGER_PREFIX: string := "simbot"
  const LOGGER_PREFIX_DOT: string := LOGGER_PREFIX + "."

  /** The standard severities of Python's logging module. */
  const DEBUG: int := 10
  const INFO: int := 20
  const WARNING: int := 30
  const ERROR: int := 40
  const CRITICAL: int := 50

  /** The two attributes of a log record that filters look at. */
  datatype LogRecord = LogRecord(name: string, levelno: int)

  /**
   * The rule of the standard logging.Filter(name): a record passes when no
   * name is set, when its logger is the named one, or when its logger sits
   * below the named one in the dotted hierarchy.
   */
  predicate NamespaceMatch(name: string, recordName: string) {
    || |name| == 0
    || recordName == name
    || (|name| < |recordName| && recordName[..|name|] == name && recordName[|name|] == '.')
  }

  /** A record of the project's own components rather than of a library. */
  predicate InProjectNamespace(recordName: string) {
    NamespaceMatch(LOGGER_PREFIX, recordName)
  }

  /**
   * NameLevelFilter: a level threshold that applies only inside the namespace
   * `name`, or (when inverse) only outside it.
   */
  datatype NameLevelFilter = NameLevelFilter(name: string, level: int, inverse: bool) {
    function Filter(record: LogRecord): (passes: bool)
      ensures !inverse ==> (passes <==> (!NamespaceMatch(name, record.name) || record.levelno >= level))
      ensures inverse ==> (passes <==> (NamespaceMatch(name, record.name) || record.levelno >= level))
    {
      if inverse != NamespaceMatch(name, record.name) then record.levelno >= level else true
    }
  }

  /** The name under which get_new_logger(s) creates its logger. */
  function LoggerName(s: string): (r: string)
    ensures InProjectNamespace(r)
    ensures InProjectNamespace(s) ==> r == s
    ensures !InProjectNamespace(s) ==> r == LOGGER_PREFIX_DOT + s
  {
    if !(LOGGER_PREFIX_DOT <= s || s == LOGGER_PREFIX) then "simbot." + s else s
  }

  /** Mapping a name twice gives what mapping it once gives. */
  lemma LoggerNameIdempotent(s: string)
    ensures LoggerName(LoggerName(s)) == LoggerName(s)
  {
  }

  /** A name that only begins with the letters of the prefix is not in the namespace. */
  lemma LoggerNameExamples()
    ensures LoggerName("simbot") == "simbot"
    ensures LoggerName("simbot.simbot") == "simbot.simbot"
    ensures LoggerName("simbotx") == "simbot.simbotx"
    ensures LoggerName("discord") == "simbot.discord"
  {
    assert !NamespaceMatch(LOGGER_PREFIX, "simbotx") by { assert "simbotx"[6] == 'x'; }
    assert !NamespaceMatch(LOGGER_PREFIX, "discord") by { assert "discord"[..6][0] != LOGGER_PREFIX[0]; }
  }

  /** The level names the configuration may use, with their severities. */
  const LoggerLevels: map<string, int> :=
    map["CRITICAL" := CRITICAL, "ERROR" := ERROR, "WARNING" := WARNING, "INFO" := INFO, "DEBUG" := DEBUG]

  /** safe_parse_logging_level: the severity a level name stands for; an unknown name raises KeyError. */
  function SafeParseLoggingLevel(text: string): (r: Result<int>)
    ensures r.Ok? <==> Upper(Strip(text)) in LoggerLevels.Keys
    ensures r.Ok? ==> r.value in {DEBUG, INFO, WARNING, ERROR, CRITICAL}
    ensures r.Err? ==> r.error == KeyError(Upper(Strip(text)))
  {
    var key := Upper(Strip(text));
    if key in LoggerLevels then Ok(LoggerLevels[key]) else Err(KeyError(key))
  }

  /** Each level name maps to its severity, whatever its case and the white space around it. */
  lemma SafeParseLoggingLevelNames(left: string, text: string, right: string)
    requires AllSpace(left) && AllSpace(right)
    requires Upper(text) in LoggerLevels
    ensures SafeParseLoggingLevel(left + text + right) == Ok(LoggerLevels[Upper(text)])
  {
    var u := Upper(text);
    assert Strip(u) == u by {
      assert u == "CRITICAL" || u == "ERROR" || u == "WARNING" || u == "INFO" || u == "DEBUG";
      StripUnpadded(u);
    }
    StripPadding(left, text, right);
    StripUpper(text);
  }

  /** Lower- or upper-casing the input does not change the result. */
  lemma SafeParseLoggingLevelIgnoresCase(text: string)
    ensures SafeParseLoggingLevel(Lower(text)) == SafeParseLoggingLevel(text)
    ensures SafeParseLoggingLevel(Upper(text)) == SafeParseLoggingLevel(text)
  {
    StripLower(text);
    StripUpper(text);
    UpperIgnoresCase(Strip(text));
  }
}
