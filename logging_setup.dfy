/**
 * The part of setup_logging in src/simbot/simbot_bootstrap.py that decides
 * which records reach which destination: the checks on the configuration's
 * logging entries, and the two handlers (log file and standard error), each
 * with its own threshold for the project's loggers and another for libraries.
 */
module LoggingSetup {
  import opened Wrappers
  import opened ConfigTree
  import opened Text
  import opened UtilsLogging

  const CONFIG_NOT_A_DICT: string := "config must be of type dict."
  const LOGFILE_NOT_A_STRING: string := "logfile must be a string."

  /** A logging.Handler reduced to what decides emission: its level and its filters. */
  datatype Handler = Handler(level: int, filters: seq<NameLevelFilter>) {
    /** A record is emitted when it reaches the handler's level and every filter passes it. */
    predicate Accepts(record: LogRecord) {
      record.levelno >= level && forall i :: 0 <= i < |filters| ==> filters[i].Filter(record)
    }
  }

  /**
   * The handler setup_logging builds for one destination: level DEBUG, one
   * filter for the project's namespace and one, inverted, for everything else.
   */
  function RoutingHandler(simbotLevel: int, librariesLevel: int): (h: Handler)
    ensures forall record :: h.Accepts(record) <==>
      record.levelno >= DEBUG &&
      record.levelno >= (if InProjectNamespace(record.name) then simbotLevel else librariesLevel)
  {
    var h := Handler(DEBUG, [NameLevelFilter(LOGGER_PREFIX, simbotLevel, false),
                             NameLevelFilter(LOGGER_PREFIX, librariesLevel, true)]);
    assert forall record :: h.Accepts(record) <==> h.filters[0].Filter(record) && h.filters[1].Filter(record) && record.levelno >= DEBUG;
    h
  }

  /** A logger whose name merely starts with the letters of the prefix is routed as a library. */
  lemma RoutingLookalikeIsLibrary(simbotLevel: int, librariesLevel: int, levelno: int)
    ensures RoutingHandler(simbotLevel, librariesLevel).Accepts(LogRecord("simbotx", levelno)) <==>
      levelno >= DEBUG && levelno >= librariesLevel
  {
    assert !InProjectNamespace("simbotx") by { assert "simbotx"[6] == 'x'; }
  }

  /** The destinations setup_logging attaches to the root logger. */
  datatype Setup = Setup(logfile: string, fileHandler: Handler, stderrHandler: Handler)

  /** The four level entries under "logging", in the order setup_logging parses them. */
  const LevelKeys: seq<string> :=
    ["logfile_simbot_level", "logfile_libraries_level", "stderr_simbot_level", "stderr_libraries_level"]

  /** The entries setup_logging reads without checking that they exist. */
  predicate HasLoggingKeys(config: Json) {
    && HasPath(config, ["paths", "logfile"])
    && HasPath(config, ["logging", "logfile_simbot_level"])
    && HasPath(config, ["logging", "logfile_libraries_level"])
    && HasPath(config, ["logging", "stderr_simbot_level"])
    && HasPath(config, ["logging", "stderr_libraries_level"])
  }

  /**
   * safe_parse_logging_level applied to a configuration value: the severity of
   * a level name in the table, KeyError for any other string, and an
   * AttributeError for a value that is not a string, which has no strip method.
   */
  function LevelSetting(v: Json): (r: Result<int>)
    ensures v.JStr? ==> (r.Ok? <==> Upper(Strip(v.str)) in LoggerLevels)
    ensures v.JStr? && r.Ok? ==> r.value == LoggerLevels[Upper(Strip(v.str))]
    ensures v.JStr? && r.Err? ==> r.error == KeyError(Upper(Strip(v.str)))
    ensures !v.JStr? ==> r == Err(AttributeError("strip"))
  {
    if v.JStr? then SafeParseLoggingLevel(v.str) else Err(AttributeError("strip"))
  }

  /** The parsed value of the i-th level entry. */
  function Level(config: Json, i: nat): Result<int>
    requires HasLoggingKeys(config) && i < 4
  {
    LevelSetting(At(config, ["logging", LevelKeys[i]]))
  }

  /** The four thresholds, in the order of LevelKeys. */
  datatype Levels = Levels(logfileSimbot: int, logfileLibraries: int, stderrSimbot: int, stderrLibraries: int)

  /** The four level entries parsed in order; the first that fails decides the error. */
  function ParseLevels(config: Json): (r: Result<Levels>)
    requires HasLoggingKeys(config)
    ensures r.Ok? <==> Level(config, 0).Ok? && Level(config, 1).Ok? && Level(config, 2).Ok? && Level(config, 3).Ok?
    ensures Level(config, 0).Err? ==> r == Err(Level(config, 0).error)
    ensures Level(config, 0).Ok? && Level(config, 1).Err? ==> r == Err(Level(config, 1).error)
    ensures Level(config, 0).Ok? && Level(config, 1).Ok? && Level(config, 2).Err? ==> r == Err(Level(config, 2).error)
    ensures Level(config, 0).Ok? && Level(config, 1).Ok? && Level(config, 2).Ok? && Level(config, 3).Err? ==>
      r == Err(Level(config, 3).error)
    ensures r.Ok? ==> r.value == Levels(Level(config, 0).value, Level(config, 1).value, Level(config, 2).value, Level(config, 3).value)
  {
    var logfileSimbot :- Level(config, 0);
    var logfileLibraries :- Level(config, 1);
    var stderrSimbot :- Level(config, 2);
    var stderrLibraries :- Level(config, 3);
    Ok(Levels(logfileSimbot, logfileLibraries, stderrSimbot, stderrLibraries))
  }

  /**
   * setup_logging: the handlers it installs, or the error it raises. The
   * checks run in source order: the config itself, the log file path, then
   * the four levels.
   */
  function SetupLogging(config: Json): (r: Result<Setup>)
    requires config.JObj? ==> HasLoggingKeys(config)
    ensures !config.JObj? ==> r == Err(TypeError(CONFIG_NOT_A_DICT))
    ensures config.JObj? && !At(config, ["paths", "logfile"]).JStr? ==> r == Err(TypeError(LOGFILE_NOT_A_STRING))
    ensures config.JObj? && At(config, ["paths", "logfile"]).JStr? && ParseLevels(config).Err? ==>
      r == Err(ParseLevels(config).error)
    ensures r.Ok? <==> config.JObj? && At(config, ["paths", "logfile"]).JStr? && ParseLevels(config).Ok?
    ensures r.Ok? ==> r.value.logfile == At(config, ["paths", "logfile"]).str
    ensures r.Ok? ==> forall record :: r.value.fileHandler.Accepts(record) <==>
      record.levelno >= DEBUG && record.levelno >=
        (if InProjectNamespace(record.name) then ParseLevels(config).value.logfileSimbot
         else ParseLevels(config).value.logfileLibraries)
    ensures r.Ok? ==> forall record :: r.value.stderrHandler.Accepts(record) <==>
      record.levelno >= DEBUG && record.levelno >=
        (if InProjectNamespace(record.name) then ParseLevels(config).value.stderrSimbot
         else ParseLevels(config).value.stderrLibraries)
  {
    if !config.JObj? then Err(TypeError(CONFIG_NOT_A_DICT))
    else
      var logfile := At(config, ["paths", "logfile"]);
      if !logfile.JStr? then Err(TypeError(LOGFILE_NOT_A_STRING))
      else
        var levels :- ParseLevels(config);
        Ok(Setup(logfile.str,
                 RoutingHandler(levels.logfileSimbot, levels.logfileLibraries),
                 RoutingHandler(levels.stderrSimbot, levels.stderrLibraries)))
  }
}
