/**
 * run() of src/simbot/simbot_bootstrap.py: first-run handling, the
 * configuration pipeline (merge, extra-key warnings, write-back, logging) and
 * the supervisor loop that relaunches the bot's worker process after a crash.
 * Each worker launch is an oracle: the exit code the client would end with.
 */
module SimbotBootstrap {
  import opened Wrappers
  import opened ConfigTree
  import opened ConfigMerge
  import opened ConfigWarnings
  import opened LoggingSetup

  const RECONNECT_NOT_BOOLEAN: string := "reconnect_on_error must be a Boolean."

  /** Seconds the supervisor waits before relaunching a crashed worker. */
  const RESTART_DELAY: nat := 10

  const RestartFlagPath: seq<string> := ["error_handling", "automatic_restart_after_crash"]
  const TokenPath: seq<string> := ["bot_login_token"]

  /**
   * The exit code of one worker process. The worker is simbot.run: it raises
   * TypeError before connecting when the login token is not a string, and an
   * uncaught exception ends a process with exit code 1. Otherwise the process
   * ends with the code the client run produced.
   */
  function WorkerExitCode(config: Json, clientExit: int): (code: int)
    requires HasPath(config, TokenPath)
    ensures !At(config, TokenPath).JStr? ==> code == 1
    ensures At(config, TokenPath).JStr? ==> code == clientExit
  {
    if At(config, TokenPath).JStr? then clientExit else 1
  }

  /** The exit codes of successive launches, one client outcome each. */
  function WorkerExitCodes(config: Json, clientExits: seq<int>): (codes: seq<int>)
    requires HasPath(config, TokenPath)
    ensures |codes| == |clientExits|
    ensures forall i :: 0 <= i < |codes| ==> codes[i] == WorkerExitCode(config, clientExits[i])
  {
    seq(|clientExits|, i requires 0 <= i < |clientExits| => WorkerExitCode(config, clientExits[i]))
  }

  /**
   * The launch after which the supervisor loop stops: the first whose exit
   * code is 0, or the first at all when restarting is off. None when every
   * launch in codes is followed by another.
   */
  function StopIndex(restart: bool, codes: seq<int>): (r: Option<nat>)
    ensures r.Some? ==> r.value < |codes| && (codes[r.value] == 0 || !restart)
    ensures r.Some? ==> forall j :: 0 <= j < r.value ==> codes[j] != 0 && restart
    ensures r.None? <==> forall j :: 0 <= j < |codes| ==> codes[j] != 0 && restart
    decreases |codes|
  {
    if codes == [] then None
    else if codes[0] == 0 || !restart then Some(0)
    else match StopIndex(restart, codes[1..])
      case None => None
      case Some(i) => Some(i + 1)
  }

  /** The loop stops at the first launch that ends it. */
  lemma {:induction false} StopIndexAt(restart: bool, codes: seq<int>, i: nat)
    requires i < |codes| && (codes[i] == 0 || !restart)
    requires forall j :: 0 <= j < i ==> codes[j] != 0 && restart
    ensures StopIndex(restart, codes) == Some(i)
    decreases i
  {
    if i > 0 {
      assert codes[0] != 0 && restart;
      forall j | 0 <= j < i - 1
        ensures codes[1..][j] != 0 && restart
      {
        assert codes[1..][j] == codes[j + 1];
      }
      StopIndexAt(restart, codes[1..], i - 1);
    }
  }

  /** No launch ends the loop: it never stops. */
  lemma StopIndexNone(restart: bool, codes: seq<int>)
    requires |codes| > 0 ==> restart
    requires forall j :: 0 <= j < |codes| ==> codes[j] != 0
    ensures StopIndex(restart, codes) == None
  {
    forall j | 0 <= j < |codes|
      ensures codes[j] != 0 && restart
    {
    }
  }

  /** With restarts off exactly one worker is launched, whatever its exit code. */
  lemma StopIndexRestartOff(codes: seq<int>)
    requires |codes| > 0
    ensures StopIndex(false, codes) == Some(0)
  {
  }

  /** With restarts on the loop stops at the first clean exit and at nothing else. */
  lemma StopIndexRestartOn(codes: seq<int>, i: nat)
    ensures StopIndex(true, codes) == Some(i) <==>
      i < |codes| && codes[i] == 0 && forall j :: 0 <= j < i ==> codes[j] != 0
  {
    if i < |codes| && codes[i] == 0 && forall j :: 0 <= j < i ==> codes[j] != 0 {
      StopIndexAt(true, codes, i);
    }
  }

  /** A bot that cannot log in is relaunched for ever when restarts are on. */
  lemma BadTokenNeverStops(config: Json, clientExits: seq<int>)
    requires HasPath(config, TokenPath) && !At(config, TokenPath).JStr?
    ensures StopIndex(true, WorkerExitCodes(config, clientExits)) == None
  {
  }

  /**
   * A bot that cannot log in, with restarts off: one worker is launched, it
   * exits with 1, and that is the code run returns.
   */
  lemma BadTokenRestartOff(config: Json, clientExits: seq<int>)
    requires HasPath(config, TokenPath) && !At(config, TokenPath).JStr?
    requires |clientExits| > 0
    ensures StopIndex(false, WorkerExitCodes(config, clientExits)) == Some(0)
    ensures WorkerExitCodes(config, clientExits)[0] == 1
  {
  }

  /** A bot that can log in returns, from each launch, the exit code of its client. */
  lemma GoodTokenExitCodes(config: Json, clientExits: seq<int>)
    requires HasPath(config, TokenPath) && At(config, TokenPath).JStr?
    ensures WorkerExitCodes(config, clientExits) == clientExits
  {
  }

  /**
   * The while True loop of run: launches workers until one exits with 0 or,
   * with restarts off, after the first. Returns the number of launches and the
   * exit code run returns, or None when codes ran out while the loop would
   * launch again; `waited` is the seconds spent sleeping.
   */
  method SuperviseLoop(restart: bool, codes: seq<int>) returns (launches: nat, exitcode: Option<int>, ghost waited: nat)
    ensures StopIndex(restart, codes).Some? ==>
      launches == StopIndex(restart, codes).value + 1 && exitcode == Some(codes[launches - 1])
    ensures StopIndex(restart, codes).None? ==> launches == |codes| && exitcode == None
    ensures StopIndex(restart, codes).Some? ==> waited == RESTART_DELAY * (launches - 1)
    ensures StopIndex(restart, codes).None? ==> waited == RESTART_DELAY * launches
  {
    launches, exitcode, waited := 0, None, 0;
    while launches < |codes|
      invariant launches <= |codes|
      invariant launches > 0 ==> restart
      invariant forall j :: 0 <= j < launches ==> codes[j] != 0
      invariant waited == RESTART_DELAY * launches
    {
      var code := codes[launches];
      if code == 0 || !restart {
        StopIndexAt(restart, codes, launches);
        return launches + 1, Some(code), waited;
      }
      launches := launches + 1;
      waited := waited + RESTART_DELAY;
    }
    assert launches == |codes|;
    StopIndexNone(restart, codes);
  }

  lemma DefaultConfigKeys()
    ensures Keys(DefaultConfig.members) ==
      ["bot_login_token", "bot_owner_id", "paths", "logging", "defaults", "error_handling"]
    ensures Distinct(Keys(DefaultConfig.members))
  {
    var ks := Keys(DefaultConfig.members);
    assert ks == ["bot_login_token", "bot_owner_id", "paths", "logging", "defaults", "error_handling"];
    assert ks[0][4] != ks[1][4];
  }

  /** Each section of the template is well formed. */
  lemma DefaultConfigSection(i: nat)
    requires i < |DefaultConfig.members|
    ensures WellFormed(DefaultConfig.members[i].1)
  {
    var ts := DefaultConfig.members;
    if i == 2 {
      assert Keys(ts[2].1.members) == ["data_folder", "logfile"];
    } else if i == 3 {
      var ks := Keys(ts[3].1.members);
      assert ks == ["logfile_simbot_level", "logfile_libraries_level", "stderr_simbot_level", "stderr_libraries_level"];
      assert ks[0][8] != ks[1][8] && ks[2][7] != ks[3][7];
      assert ks[0][0] != ks[2][0] && ks[0][0] != ks[3][0] && ks[1][0] != ks[2][0] && ks[1][0] != ks[3][0];
    } else if i == 4 {
      assert Keys(ts[4].1.members) == ["command_prefix", "status_message"];
    } else if i == 5 {
      assert Keys(ts[5].1.members) == ["automatic_restart_after_crash", "force_message_bot_owners_on_error"];
    }
  }

  /** The template keeps the rule its own comment states: unique keys, and no dict inside a list. */
  lemma DefaultConfigWellFormed()
    ensures WellFormed(DefaultConfig)
  {
    DefaultConfigKeys();
    forall i | 0 <= i < |DefaultConfig.members|
      ensures WellFormed(DefaultConfig.members[i].1)
    {
      DefaultConfigSection(i);
    }
  }

  /** A two-key path of the template: the key of section i, then the key at position j inside it. */
  lemma DefaultConfigPath(i: nat, j: nat, section: string, key: string)
    requires i < |DefaultConfig.members| && DefaultConfig.members[i].1.JObj?
    requires j < |DefaultConfig.members[i].1.members|
    requires DefaultConfig.members[i].0 == section && DefaultConfig.members[i].1.members[j].0 == key
    ensures HasPath(DefaultConfig, [section, key])
  {
    var ts := DefaultConfig.members;
    var sec := ts[i].1;
    DefaultConfigKeys();
    DefaultConfigSection(i);
    GetAt(ts, i);
    GetAt(sec.members, j);
    HasPathCons(sec, key, []);
    HasPathCons(DefaultConfig, section, [key]);
  }

  lemma DefaultConfigLevelPath(j: nat)
    requires j < 4
    ensures HasPath(DefaultConfig, ["logging", LevelKeys[j]])
  {
    DefaultConfigPath(3, j, "logging", LevelKeys[j]);
  }

  lemma DefaultConfigLogfilePath()
    ensures HasPath(DefaultConfig, ["paths", "logfile"])
  {
    DefaultConfigPath(2, 1, "paths", "logfile");
  }

  lemma DefaultConfigRestartFlagPath()
    ensures HasPath(DefaultConfig, RestartFlagPath)
  {
    DefaultConfigPath(5, 0, "error_handling", "automatic_restart_after_crash");
  }

  lemma DefaultConfigTokenPath()
    ensures HasPath(DefaultConfig, TokenPath)
  {
    DefaultConfigKeys();
    GetAt(DefaultConfig.members, 0);
    HasPathCons(DefaultConfig, "bot_login_token", []);
    assert ["bot_login_token"] + [] == TokenPath;
  }

  /** The entries run reads are all in the template. */
  lemma DefaultConfigPaths()
    ensures HasLoggingKeys(DefaultConfig)
    ensures HasPath(DefaultConfig, RestartFlagPath) && HasPath(DefaultConfig, TokenPath)
  {
    DefaultConfigLogfilePath();
    DefaultConfigLevelPath(0);
    DefaultConfigLevelPath(1);
    DefaultConfigLevelPath(2);
    DefaultConfigLevelPath(3);
    DefaultConfigRestartFlagPath();
    DefaultConfigTokenPath();
  }

  /** After a successful merge the document has every entry run reads, and the extra-key walk cannot raise. */
  lemma MergedConfigFacts(loaded: Json)
    requires WellFormed(loaded) && Merged(loaded, DefaultConfig).Ok?
    ensures WellFormed(Merged(loaded, DefaultConfig).value)
    ensures HasLoggingKeys(Merged(loaded, DefaultConfig).value)
    ensures HasPath(Merged(loaded, DefaultConfig).value, RestartFlagPath)
    ensures HasPath(Merged(loaded, DefaultConfig).value, TokenPath)
    ensures ExtraKeys(Merged(loaded, DefaultConfig).value, DefaultConfig, []).finished
  {
    var m := Merged(loaded, DefaultConfig).value;
    DefaultConfigWellFormed();
    DefaultConfigPaths();
    MergedWellFormed(loaded, DefaultConfig);
    MergedHasTemplatePaths(loaded, DefaultConfig, ["paths", "logfile"]);
    MergedHasTemplatePaths(loaded, DefaultConfig, ["logging", "logfile_simbot_level"]);
    MergedHasTemplatePaths(loaded, DefaultConfig, ["logging", "logfile_libraries_level"]);
    MergedHasTemplatePaths(loaded, DefaultConfig, ["logging", "stderr_simbot_level"]);
    MergedHasTemplatePaths(loaded, DefaultConfig, ["logging", "stderr_libraries_level"]);
    MergedHasTemplatePaths(loaded, DefaultConfig, RestartFlagPath);
    MergedHasTemplatePaths(loaded, DefaultConfig, TokenPath);
    MergeIdempotent(loaded, DefaultConfig);
    ExtraKeysFinished(m, DefaultConfig, []);
  }

  /**
   * The warnings run buffers name exactly the extra key paths of the file as
   * it was read, each once: merging in the defaults neither hides nor adds any.
   */
  lemma RunWarnsExtraPaths(loaded: Json, q: seq<string>)
    requires WellFormed(loaded) && Merged(loaded, DefaultConfig).Ok?
    ensures Distinct(ExtraKeys(Merged(loaded, DefaultConfig).value, DefaultConfig, []).paths)
    ensures q in ExtraKeys(Merged(loaded, DefaultConfig).value, DefaultConfig, []).paths <==>
      IsExtraPath(loaded, DefaultConfig, q)
  {
    var m := Merged(loaded, DefaultConfig).value;
    MergedConfigFacts(loaded);
    DefaultConfigWellFormed();
    ExtraKeysDistinct(m, DefaultConfig, []);
    ExtraKeysSound(m, DefaultConfig, []);
    MergedKeepsExtraPaths(loaded, DefaultConfig, q);
    var none: seq<string> := [];
    assert q[|none|..] == q;
    if IsExtraPath(loaded, DefaultConfig, q) {
      ExtraKeysComplete(m, DefaultConfig, [], q);
      assert [] + q == q;
    }
  }

  /** When no key of the file holds a double quote, every buffered message is different from the others. */
  lemma RunWarningsDistinct(loaded: Json)
    requires WellFormed(loaded) && Merged(loaded, DefaultConfig).Ok? && UnquotedKeys(loaded)
    ensures Distinct(Warnings(ExtraKeys(Merged(loaded, DefaultConfig).value, DefaultConfig, []).paths))
  {
    var paths := ExtraKeys(Merged(loaded, DefaultConfig).value, DefaultConfig, []).paths;
    forall i | 0 <= i < |paths|
      ensures UnquotedPath(paths[i])
    {
      RunWarnsExtraPaths(loaded, paths[i]);
      HasPathUnquoted(loaded, paths[i]);
    }
    RunWarnsExtraPaths(loaded, []);
    WarningsDistinct(paths);
  }

  /** The configuration run continues with once merge_default has succeeded on the loaded file. */
  function MergedConfig(loaded: Json): (m: Json)
    requires WellFormed(loaded) && Merged(loaded, DefaultConfig).Ok?
    ensures m == Merged(loaded, DefaultConfig).value && m.JObj? && WellFormed(m)
    ensures HasLoggingKeys(m) && HasPath(m, RestartFlagPath) && HasPath(m, TokenPath)
    ensures ExtraKeys(m, DefaultConfig, []).finished
  {
    MergedConfigFacts(loaded);
    Merged(loaded, DefaultConfig).value
  }

  /** The warning buffer, the warnings logged, the logging setup and the number of launches. */
  datatype Progress = Progress(buffered: seq<string>, logged: seq<string>, logging: Option<Setup>, launches: nat)

  /** How run ends: the exit code it returns, the exception it raises, or still supervising when the launches ran out. */
  datatype RunOutcome = Returned(code: int) | Raised(error: Error) | StillSupervising

  /**
   * The seconds slept while the launch count went from launched to launches:
   * one delay before each relaunch, so one fewer than the launches when the
   * loop returned, as many when it was still supervising, none when run raised.
   */
  ghost predicate Slept(outcome: RunOutcome, launched: nat, launches: nat, before: nat, after: nat) {
    match outcome
    case Returned(_) => after == before + RESTART_DELAY * (launches - launched - 1)
    case StillSupervising => after == before + RESTART_DELAY * (launches - launched)
    case Raised(_) => after == before
  }

  /** The module-level state of simbot_bootstrap and the effects run has on the outside world. */
  class Bootstrap {
    /** buffered_warnings: messages held until logging is set up. */
    var bufferedWarnings: seq<string>
    /** Messages setup_logging has passed to logger.warning, in order. */
    var loggedWarnings: seq<string>
    /** The document last written to the configuration file, if any. */
    var savedConfig: Option<Json>
    /** The handlers setup_logging installed, once it has run. */
    var logging: Option<Setup>
    /** Worker processes started so far. */
    var launches: nat
    /** Seconds spent waiting before relaunches. */
    ghost var waited: nat

    constructor ()
      ensures bufferedWarnings == [] && loggedWarnings == [] && savedConfig == None && logging == None
      ensures launches == 0 && waited == 0
    {
      bufferedWarnings, loggedWarnings, savedConfig, logging, launches := [], [], None, None, 0;
      waited := 0;
    }

    /**
     * warn_extra_keys(config, template, keyList): appends one message per
     * extra key path below keyList, in document order; raises TypeError on a
     * value that should be a dict, keeping the messages appended before.
     */
    method WarnExtraKeys(config: Json, template: Json, keyList: seq<string>) returns (r: Result<()>)
      requires template.JObj?
      modifies this`bufferedWarnings
      ensures bufferedWarnings == old(bufferedWarnings) + Warnings(ExtraKeys(config, template, keyList).paths)
      ensures r.Ok? <==> ExtraKeys(config, template, keyList).finished
      ensures r.Err? ==> r.error == TypeError(EXPECTING_A_DICT)
      decreases template, if config.JObj? then |config.members| + 1 else 0
    {
      if !config.JObj? {
        return Err(TypeError(EXPECTING_A_DICT));
      }
      var ms := config.members;
      var i := 0;
      while i < |ms|
        invariant 0 <= i <= |ms|
        invariant ExtraKeysFold(ms, template, keyList, i).finished
        invariant bufferedWarnings == old(bufferedWarnings) + Warnings(ExtraKeysFold(ms, template, keyList, i).paths)
      {
        var entry := WarnEntry(ms, template, keyList, i, old(bufferedWarnings));
        if entry.Err? {
          ExtraKeysFoldStops(ms, template, keyList, i + 1, |ms|);
          return entry;
        }
        i := i + 1;
      }
      return Ok(());
    }

    /** One turn of the loop of warn_extra_keys: the dict entry at position i. */
    method WarnEntry(ms: seq<Member>, template: Json, keyList: seq<string>, i: nat, ghost base: seq<string>)
      returns (r: Result<()>)
      requires template.JObj? && i < |ms|
      requires ExtraKeysFold(ms, template, keyList, i).finished
      requires bufferedWarnings == base + Warnings(ExtraKeysFold(ms, template, keyList, i).paths)
      modifies this`bufferedWarnings
      ensures bufferedWarnings == base + Warnings(ExtraKeysFold(ms, template, keyList, i + 1).paths)
      ensures r.Ok? <==> ExtraKeysFold(ms, template, keyList, i + 1).finished
      ensures r.Err? ==> r.error == TypeError(EXPECTING_A_DICT)
      decreases template, i + 1
    {
      var (k, v) := ms[i];
      ghost var before := ExtraKeysFold(ms, template, keyList, i).paths;
      FoldStep(ms, template, keyList, i);
      if k in Keys(template.members) {
        var tv := template.members[Find(Keys(template.members), k)].1;
        assert tv == Get(template.members, k);
        if tv.JObj? {
          r := WarnNested(v, tv, keyList + [k], base, before);
        } else {
          r := Ok(());
        }
      } else {
        BufferWarning(keyList + [k], base, before);
        r := Ok(());
      }
    }

    /** The recursive call of warn_extra_keys on a nested dict, after the messages issued so far. */
    method WarnNested(config: Json, template: Json, keyList: seq<string>, ghost base: seq<string>,
                      ghost before: seq<seq<string>>) returns (r: Result<()>)
      requires template.JObj?
      requires bufferedWarnings == base + Warnings(before)
      modifies this`bufferedWarnings
      ensures bufferedWarnings == base + Warnings(before + ExtraKeys(config, template, keyList).paths)
      ensures r.Ok? <==> ExtraKeys(config, template, keyList).finished
      ensures r.Err? ==> r.error == TypeError(EXPECTING_A_DICT)
      decreases template, if config.JObj? then |config.members| + 2 else 1
    {
      ghost var walk := ExtraKeys(config, template, keyList);
      r := WarnExtraKeys(config, template, keyList);
      WarningsAppend(before, walk.paths);
      assert bufferedWarnings == base + (Warnings(before) + Warnings(walk.paths));
    }

    /** The message for one extra key path goes to the end of the buffer. */
    method BufferWarning(path: seq<string>, ghost base: seq<string>, ghost before: seq<seq<string>>)
      requires bufferedWarnings == base + Warnings(before)
      modifies this`bufferedWarnings
      ensures bufferedWarnings == old(bufferedWarnings) + [WarningText(path)]
      ensures bufferedWarnings == base + Warnings(before + [path])
    {
      bufferedWarnings := bufferedWarnings + [WarningText(path)];
      WarningsAppend(before, [path]);
      assert Warnings([path]) == [WarningText(path)];
      assert bufferedWarnings == base + (Warnings(before) + Warnings([path]));
    }

    /** The loop at the end of setup_logging: each buffered message is logged as a warning, in order. */
    method FlushWarnings()
      modifies this`loggedWarnings
      ensures loggedWarnings == old(loggedWarnings) + bufferedWarnings
    {
      var i := 0;
      while i < |bufferedWarnings|
        invariant 0 <= i <= |bufferedWarnings|
        invariant loggedWarnings == old(loggedWarnings) + bufferedWarnings[..i]
      {
        loggedWarnings := loggedWarnings + [bufferedWarnings[i]];
        assert bufferedWarnings[..i + 1] == bufferedWarnings[..i] + [bufferedWarnings[i]];
        i := i + 1;
      }
      assert bufferedWarnings[..i] == bufferedWarnings;
    }

    /**
     * setup_logging: installs the two handlers, then logs every buffered
     * warning in order and drops the buffer; on an error nothing changes.
     */
    method InstallLogging(config: Json) returns (r: Result<Setup>)
      requires config.JObj? ==> HasLoggingKeys(config)
      modifies this`logging, this`bufferedWarnings, this`loggedWarnings
      ensures r == SetupLogging(config)
      ensures r.Err? ==> unchanged(this)
      ensures r.Ok? ==>
        && logging == Some(r.value)
        && loggedWarnings == old(loggedWarnings) + old(bufferedWarnings)
        && bufferedWarnings == []
    {
      r := SetupLogging(config);
      if r.Err? {
        return;
      }
      Install(r.value);
    }

    /** The end of setup_logging: the handlers are in place, the buffer is logged, then dropped. */
    method Install(setup: Setup)
      modifies this`logging, this`bufferedWarnings, this`loggedWarnings
      ensures logging == Some(setup)
      ensures loggedWarnings == old(loggedWarnings) + old(bufferedWarnings)
      ensures bufferedWarnings == []
    {
      logging := Some(setup);
      FlushWarnings();
      bufferedWarnings := [];
    }
  
    /**
     * run(): with no configuration file, writes the defaults and returns 0.
     * Otherwise merges in the defaults, buffers the extra-key warnings, writes
     * the merged document back, sets up logging, checks the restart flag and
     * supervises the worker. clientExits are the exit codes the client would
     * produce on successive launches.
     */
    method Run(configExists: bool, loaded: Json, clientExits: seq<int>) returns (outcome: RunOutcome)
      requires WellFormed(loaded)
      modifies this
      ensures !configExists ==>
        && outcome == Returned(0) && savedConfig == Some(DefaultConfig) && launches == old(launches)
        && bufferedWarnings == old(bufferedWarnings) && loggedWarnings == old(loggedWarnings)
        && logging == old(logging)
      ensures configExists && Merged(loaded, DefaultConfig).Err? ==>
        outcome == Raised(TypeError(EXPECTING_A_DICT)) && unchanged(this)
      ensures configExists && Merged(loaded, DefaultConfig).Ok? ==>
        && savedConfig == Some(MergedConfig(loaded))
        && StartedBot(MergedConfig(loaded), clientExits, SetupLogging(MergedConfig(loaded)),
             old(Snapshot()).(buffered := old(bufferedWarnings) + Warnings(ExtraKeys(MergedConfig(loaded), DefaultConfig, []).paths)),
             Snapshot(), outcome)
      ensures !configExists || Merged(loaded, DefaultConfig).Err? ==> waited == old(waited)
      ensures configExists && Merged(loaded, DefaultConfig).Ok? ==>
        Slept(outcome, old(launches), launches, old(waited), waited)
    {
      if !configExists {
        savedConfig := Some(DefaultConfig);
        return Returned(0);
      }
      var merged := MergeDefault(loaded, DefaultConfig);
      if merged.Err? {
        return Raised(merged.error);
      }
      outcome := RunMerged(MergedConfig(loaded), clientExits);
    }

    /** The part of run after merge_default: the warnings, the write-back, then the bot. */
    method RunMerged(config: Json, clientExits: seq<int>) returns (outcome: RunOutcome)
      requires config.JObj? && HasLoggingKeys(config) && HasPath(config, RestartFlagPath) && HasPath(config, TokenPath)
      requires ExtraKeys(config, DefaultConfig, []).finished
      modifies this
      ensures savedConfig == Some(config)
      ensures StartedBot(config, clientExits, SetupLogging(config),
                         old(Snapshot()).(buffered := old(bufferedWarnings) + Warnings(ExtraKeys(config, DefaultConfig, []).paths)),
                         Snapshot(), outcome)
      ensures Slept(outcome, old(launches), launches, old(waited), waited)
    {
      var warned := WarnExtraKeys(config, DefaultConfig, []);
      savedConfig := Some(config);
      ghost var started;
      outcome, started := StartBot(config, clientExits);
    }

    /**
     * What the rest of run leaves behind, from setup_logging on, given the
     * state before it: the buffered warnings, the logged ones, the logging
     * setup and the launch count.
     */
    ghost predicate StartedBot(config: Json, clientExits: seq<int>, setup: Result<Setup>, before: Progress,
                               after: Progress, outcome: RunOutcome)
      requires HasPath(config, RestartFlagPath) && HasPath(config, TokenPath)
    {
      && (setup.Err? ==> outcome == Raised(setup.error) && after == before)
      && (setup.Ok? ==>
            && after.logging == Some(setup.value) && after.buffered == []
            && after.logged == before.logged + before.buffered
            && Launched(config, clientExits, before.launches, after.launches, outcome))
    }

    /** The part of the state that run changes after writing the configuration file. */
    ghost function Snapshot(): Progress
      reads this
    {
      Progress(bufferedWarnings, loggedWarnings, logging, launches)
    }

    /**
     * The flag check and the supervisor loop: a restart flag that is not a
     * Boolean raises before any launch; otherwise the loop runs until StopIndex.
     */
    ghost predicate Launched(config: Json, clientExits: seq<int>, launched: nat, launches: nat, outcome: RunOutcome)
      requires HasPath(config, RestartFlagPath) && HasPath(config, TokenPath)
    {
      var flag := At(config, RestartFlagPath);
      && (!flag.JBool? ==> outcome == Raised(TypeError(RECONNECT_NOT_BOOLEAN)) && launches == launched)
      && (flag.JBool? ==>
            var codes := WorkerExitCodes(config, clientExits);
            var stop := StopIndex(flag.b, codes);
            && (stop.Some? ==> outcome == Returned(codes[stop.value]) && launches == launched + stop.value + 1)
            && (stop.None? ==> outcome == StillSupervising && launches == launched + |codes|))
    }

    /** The part of run after the configuration file is written: logging, the flag check and the supervisor loop. */
    method StartBot(config: Json, clientExits: seq<int>) returns (outcome: RunOutcome, ghost setup: Result<Setup>)
      requires config.JObj? && HasLoggingKeys(config) && HasPath(config, RestartFlagPath) && HasPath(config, TokenPath)
      modifies this`logging, this`bufferedWarnings, this`loggedWarnings, this`launches, this`waited
      ensures setup == SetupLogging(config)
      ensures StartedBot(config, clientExits, setup, old(Snapshot()), Snapshot(), outcome)
      ensures Slept(outcome, old(launches), launches, old(waited), waited)
    {
      var installed := InstallLogging(config);
      setup := installed;
      if installed.Err? {
        outcome := Raised(installed.error);
        return;
      }
      outcome := LaunchBot(config, clientExits);
    }

    /** The restart flag check, then the while True loop of run. */
    method LaunchBot(config: Json, clientExits: seq<int>) returns (outcome: RunOutcome)
      requires HasPath(config, RestartFlagPath) && HasPath(config, TokenPath)
      modifies this`launches, this`waited
      ensures Launched(config, clientExits, old(launches), launches, outcome)
      ensures Slept(outcome, old(launches), launches, old(waited), waited)
    {
      var flag := At(config, RestartFlagPath);
      if !flag.JBool? {
        return Raised(TypeError(RECONNECT_NOT_BOOLEAN));
      }
      var started, exitcode, slept := SuperviseLoop(flag.b, WorkerExitCodes(config, clientExits));
      launches := launches + started;
      waited := waited + slept;
      if exitcode.Some? {
        return Returned(exitcode.value);
      }
      return StillSupervising;
    }
  }
}
