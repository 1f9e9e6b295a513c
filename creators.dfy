/** The two new context creators: an AdsPower profile reached over CDP
    (`_create_adspower_browser`, skyvern/webeye/browser_factory.py:620-701)
    and a local Chrome started with a debugging port
    (`_create_local_custom_browser`, browser_factory.py:704-835). Each
    creator is a function of what its outside calls produced; it returns
    its result and the ordered list of outside effects it caused. */
module Creators {
  import opened Wrappers
  import opened PyStr
  import opened Errors
  import opened Schemas
  import opened Artifacts
  import opened Factory
  import AdsPower
  import Proxy

  /** The outside effects, in the order they happen. */
  datatype Step =
    | StartProfile(userId: string)          // AdsPower `start_browser`
    | Sleep(seconds: nat)
    | ConnectOverCdp(url: string)
    | NewContext(proxy: Option<Proxy.ProxyConfig>)
    | InstallConsoleLog
    | InstallDownloadListener
    | StopProfile(userId: string)           // AdsPower `stop_browser`
    | LaunchChrome(argv: seq<string>)
    | WaitReady(url: string)
    | TerminateChrome
    | RemoveTempDir(dir: string)

  datatype CreatorRun = CreatorRun(outcome: CreatorOutcome, steps: seq<Step>)

  /** What `connect_over_cdp` produced: the browser's existing contexts. */
  datatype ConnectOutcome = Connected(contexts: seq<ContextId>) | ConnectRaised(error: Exc)

  // ---------------------------------------------------------------------
  // AdsPower

  /** The outside answers one AdsPower creation sees. `status` is what
      `check_status()` reported, `proxy` what `setup_proxy()` would give,
      `log` the console log file `set_browser_console_log` tried to make. */
  datatype AdsPowerRun = AdsPowerRun(
    config: Option<BrowserConfig>, status: AdsPowerStatus, start: AdsPower.StartOutcome,
    connect: ConnectOutcome, newContext: Result<ContextId, Exc>,
    proxyLocation: bool, proxy: Option<Proxy.ProxyConfig>, log: NewLog)

  const AdsPowerConfigMessage: string := "AdsPower模式需要提供有效的browser_config.adspower_user_id"

  predicate ValidAdsPowerConfig(config: Option<BrowserConfig>) {
    config.Some? && config.value.adspowerUserId.Some? && config.value.adspowerUserId.value != ""
  }

  /** The part between starting the profile and returning: start, wait,
      connect, take the first context or make one, then install the
      listeners. The error, if any, is the one that ends the `try`. */
  function AdsPowerAttempt(userId: string, run: AdsPowerRun, artifacts: Result<BrowserArtifacts, Exc>): (r: (Result<Created, Exc>, seq<Step>))
    ensures |r.1| >= 1 && r.1[0] == StartProfile(userId)
    ensures forall i :: 0 <= i < |r.1| ==> !r.1[i].StopProfile?
    ensures r.0.Ok? ==> r.0.value.cleanup == Some(StopAdsPowerProfile(userId))
  {
    match AdsPower.StartBrowser(userId, run.start)
    case Err(e) => (Err(e), [StartProfile(userId)])
    case Ok(started) =>
      var pre := [StartProfile(userId), Sleep(3), ConnectOverCdp(started.seleniumUrl)];
      match run.connect
      case ConnectRaised(e) => (Err(e), pre)
      case Connected(contexts) =>
        var made: Result<ContextId, Exc> :=
          if contexts != [] then Ok(contexts[0]) else run.newContext;
        var steps := if contexts != [] then pre
                     else pre + [NewContext(if run.proxyLocation then run.proxy else None)];
        match made
        case Err(e) => (Err(e), steps)
        case Ok(ctx) =>
          match artifacts
          case Err(e) => (Err(e), steps)
          case Ok(a) =>
            (Ok(Created(ctx, WithConsoleLog(a, run.log), Some(StopAdsPowerProfile(userId)))),
             steps + [InstallConsoleLog, InstallDownloadListener])
  }

  /** `_create_adspower_browser`: a user id is required, the service must
      be available, and any failure after the start request stops the
      profile again before the error is raised. The artifacts are the
      default ones with the console log path, when its file could be
      created. */
  function CreateAdsPower(run: AdsPowerRun): (r: CreatorRun)
    ensures r.outcome.CreatorReturned? ==>
      && ValidAdsPowerConfig(run.config)
      && r.outcome.created.artifacts
         == DefaultArtifacts().(browserConsoleLogPath := if run.log.created then Some(run.log.path) else None)
      && r.outcome.created.cleanup == Some(StopAdsPowerProfile(run.config.value.adspowerUserId.value))
  {
    AdsPowerWith(run, Ok(DefaultArtifacts()))
  }

  /** The creator given what building its artifacts gives. */
  function AdsPowerWith(run: AdsPowerRun, artifacts: Result<BrowserArtifacts, Exc>): (r: CreatorRun)
    ensures r.steps == [] <==> !ValidAdsPowerConfig(run.config) || !run.status.available
    ensures r.outcome.CreatorReturned? ==>
      && artifacts.Ok? && run.connect.Connected? && r.outcome.created.artifacts == WithConsoleLog(artifacts.value, run.log)
      && |r.steps| >= 2 && r.steps[|r.steps| - 2..] == [InstallConsoleLog, InstallDownloadListener]
    ensures artifacts.Err? ==> r.outcome.CreatorRaised?
    ensures r.outcome.CreatorRaised? && ValidAdsPowerConfig(run.config) && run.status.available ==>
      r.steps != [] && r.steps[|r.steps| - 1] == StopProfile(run.config.value.adspowerUserId.value)
  {
    if !ValidAdsPowerConfig(run.config) then CreatorRun(CreatorRaised(ValueError(AdsPowerConfigMessage)), [])
    else if !run.status.available then CreatorRun(CreatorRaised(Raised("AdsPower不可用: " + run.status.message)), [])
    else
      var userId := run.config.value.adspowerUserId.value;
      var (result, steps) := AdsPowerAttempt(userId, run, artifacts);
      match result
      case Ok(c) => CreatorRun(CreatorReturned(c), steps)
      case Err(e) => CreatorRun(CreatorRaised(e), steps + [StopProfile(userId)])
  }

  /** Without a user id, or with the service down, nothing outside is
      touched. */
  lemma AdsPowerPreconditions(run: AdsPowerRun)
    ensures !ValidAdsPowerConfig(run.config) ==>
      CreateAdsPower(run) == CreatorRun(CreatorRaised(ValueError(AdsPowerConfigMessage)), [])
    ensures ValidAdsPowerConfig(run.config) && !run.status.available ==>
      CreateAdsPower(run).steps == [] && CreateAdsPower(run).outcome.CreatorRaised? &&
      Contains(Text(CreateAdsPower(run).outcome.error), run.status.message)
  {
    if ValidAdsPowerConfig(run.config) && !run.status.available {
      ContainsExtend("AdsPower不可用: ", run.status.message, "", run.status.message);
      assert run.status.message <= run.status.message;
      assert "AdsPower不可用: " + run.status.message + "" == "AdsPower不可用: " + run.status.message;
    }
  }

  /** Once the profile is asked to start, a failure stops it exactly once,
      as the last effect, and the error raised is the one that occurred; a
      success never stops it and hands back a cleanup that will. */
  lemma AdsPowerCleanupOrder(run: AdsPowerRun)
    requires ValidAdsPowerConfig(run.config) && run.status.available
    ensures var userId := run.config.value.adspowerUserId.value;
      var r := CreateAdsPower(run);
      && |r.steps| >= 1 && r.steps[0] == StartProfile(userId)
      && (r.outcome.CreatorRaised? ==>
            && r.steps[|r.steps| - 1] == StopProfile(userId)
            && (forall i :: 0 <= i < |r.steps| - 1 ==> !r.steps[i].StopProfile?))
      && (r.outcome.CreatorReturned? ==>
            && (forall i :: 0 <= i < |r.steps| ==> !r.steps[i].StopProfile?)
            && r.outcome.created.cleanup == Some(StopAdsPowerProfile(userId)))
  {
    var userId := run.config.value.adspowerUserId.value;
    var (result, steps) := AdsPowerAttempt(userId, run, Ok(DefaultArtifacts()));
    if result.Err? {
      assert CreateAdsPower(run).steps == steps + [StopProfile(userId)];
    }
  }

  /** A successful creation connects to the address the start request
      reported, after starting the profile and waiting three seconds. */
  lemma AdsPowerConnectsToStartedProfile(run: AdsPowerRun, selenium: string, puppeteer: string, msg: Option<string>)
    requires ValidAdsPowerConfig(run.config) && run.status.available
    requires run.start == AdsPower.StartReply(Some(0), msg, Some(selenium), Some(puppeteer))
    requires run.connect.Connected?
    ensures var userId := run.config.value.adspowerUserId.value;
      CreateAdsPower(run).steps[..3] == [StartProfile(userId), Sleep(3), ConnectOverCdp("http://" + selenium)]
  {
    var userId := run.config.value.adspowerUserId.value;
    var (result, steps) := AdsPowerAttempt(userId, run, Ok(DefaultArtifacts()));
    assert steps[..3] == [StartProfile(userId), Sleep(3), ConnectOverCdp("http://" + selenium)];
    if result.Err? {
      assert (steps + [StopProfile(userId)])[..3] == steps[..3];
    }
  }

  /** The `build_browser_artifacts(**kwargs)` call as written: `kwargs`
      still holds `browser_config`, which that static method does not
      accept. */
  function ArtifactsFromKwargsAsWritten(): Result<BrowserArtifacts, Exc> {
    Err(TypeError(UnexpectedBrowserConfig))
  }

  const UnexpectedBrowserConfig: string :=
    "BrowserContextFactory.build_browser_artifacts() got an unexpected keyword argument 'browser_config'"

  /** `_create_adspower_browser` as written. */
  function CreateAdsPowerAsWritten(run: AdsPowerRun): (r: CreatorRun)
    ensures r.outcome.CreatorRaised?
  {
    AdsPowerWith(run, ArtifactsFromKwargsAsWritten())
  }

  /** As written, once the profile was started the creator's last effect
      is stopping it again. */
  lemma AsWrittenStopsProfile(run: AdsPowerRun)
    requires ValidAdsPowerConfig(run.config) && run.status.available
    ensures var r := CreateAdsPowerAsWritten(run);
      r.steps != [] && r.steps[|r.steps| - 1] == StopProfile(run.config.value.adspowerUserId.value)
  {
  }

  /** Even when AdsPower starts the profile and the connection succeeds,
      the code as written raises TypeError and stops the profile; the
      intended creator returns the context. */
  lemma AdsPowerArtifactsCallFails(run: AdsPowerRun, selenium: string, puppeteer: string, ctx: ContextId)
    requires ValidAdsPowerConfig(run.config) && run.status.available
    requires run.start == AdsPower.StartReply(Some(0), None, Some(selenium), Some(puppeteer))
    requires run.connect == Connected([ctx])
    ensures CreateAdsPowerAsWritten(run).outcome.CreatorRaised?
    ensures CreateAdsPowerAsWritten(run).outcome.error.TypeError?
    ensures CreateAdsPower(run).outcome
         == CreatorReturned(Created(ctx, WithConsoleLog(DefaultArtifacts(), run.log),
                                    Some(StopAdsPowerProfile(run.config.value.adspowerUserId.value))))
  {
  }

  /** The factory calls `set_browser_console_log` again on the artifacts
      the creator returned (browser_factory.py:271): the path the creator
      recorded is the one handed back; only when the creator could not
      create its file does the factory's own attempt decide. */
  lemma AdsPowerLogSurvivesFactory(creators: map<string, Creator>, browserType: string, run: AdsPowerRun,
                                   closeError: Option<Exc>, log: NewLog)
    requires browserType in creators && CreateAdsPower(run).outcome.CreatorReturned?
    ensures var r := CreateWith(creators, browserType, CreateAdsPower(run).outcome, None, closeError, log);
      && r.result.Ok?
      && r.result.value.artifacts.browserConsoleLogPath
         == if run.log.created then Some(run.log.path) else if log.created then Some(log.path) else None
  {
  }

  // ---------------------------------------------------------------------
  // Local custom Chrome

  /** `random.randint(9222, 9999)` */
  type CdpPort = p: int | 9222 <= p <= 9999 witness 9222

  /** The port probe: random draws until one is free. `draws` are the
      successive random choices. The source's loop never gives up; None
      only says that no draw among those given was free. The creator
      functions take the chosen port as the input `LocalRun.port`. */
  method ChooseCdpPort(draws: seq<CdpPort>, inUse: set<int>) returns (r: Option<CdpPort>)
    ensures r.None? <==> forall i :: 0 <= i < |draws| ==> draws[i] in inUse
    ensures r.Some? ==> exists k :: (0 <= k < |draws| && draws[k] == r.value && r.value !in inUse
                                      && forall i :: 0 <= i < k ==> draws[i] in inUse)
  {
    var k := 0;
    while k < |draws| && draws[k] in inUse
      invariant 0 <= k <= |draws|
      invariant forall i :: 0 <= i < k ==> draws[i] in inUse
    {
      k := k + 1;
    }
    if k == |draws| {
      return None;
    }
    return Some(draws[k]);
  }

  /** The outside answers one local Chrome creation sees: whether the
      executable exists, the free port and fresh temporary directory chosen,
      what starting the process, the readiness wait, the connection and the
      new context produced, the console log file `set_browser_console_log`
      tried to make, and whether the process was still running when a
      failure was handled. */
  datatype LocalRun = LocalRun(
    config: Option<BrowserConfig>, pathExists: bool, port: CdpPort, tempDir: string,
    proxyLocation: bool, proxy: Option<Proxy.ProxyConfig>,
    launch: Option<Exc>, ready: bool, connect: Result<nat, Exc>, newContext: Result<ContextId, Exc>,
    log: NewLog, runningAtFailure: bool)

  const LocalConfigMessage: string := "本地自定义Chrome模式需要提供有效的browser_config.chrome_path"

  predicate ValidLocalConfig(config: Option<BrowserConfig>) {
    config.Some? && config.value.chromePath.Some? && config.value.chromePath.value != ""
  }

  function CdpUrl(port: CdpPort): string {
    "http://localhost:" + NatToString(port)
  }

  /** The command line flags: port and profile directory first, then the
      fixed flags, the user's own flags, and a proxy server when a proxy
      location was asked for and the pool gave a server. */
  function ChromeArgs(port: CdpPort, tempDir: string, userArgs: Option<seq<string>>,
                      proxyLocation: bool, proxy: Option<Proxy.ProxyConfig>): (r: seq<string>)
    ensures |r| >= 10 + |userArgs.GetOr([])|
    ensures r[0] == "--remote-debugging-port=" + NatToString(port) && r[1] == "--user-data-dir=" + tempDir
    ensures r[10..10 + |userArgs.GetOr([])|] == userArgs.GetOr([])
  {
    ["--remote-debugging-port=" + NatToString(port), "--user-data-dir=" + tempDir,
     "--disable-blink-features=AutomationControlled", "--disable-web-security", "--no-first-run",
     "--no-default-browser-check", "--disable-infobars", "--disable-extensions",
     "--disable-dev-shm-usage", "--no-sandbox"]
    + userArgs.GetOr([])
    + (if proxyLocation && proxy.Some? && proxy.value.server != "" then ["--proxy-server=" + proxy.value.server] else [])
  }

  /** The `except` block: stop a process that is still running, then remove
      the profile directory. */
  function LocalFailureCleanup(run: LocalRun, processStarted: bool): seq<Step> {
    (if processStarted && run.runningAtFailure then [TerminateChrome] else []) + [RemoveTempDir(run.tempDir)]
  }

  function LocalAttempt(run: LocalRun, argv: seq<string>, artifacts: Result<BrowserArtifacts, Exc>): (r: (Result<Created, Exc>, seq<Step>))
    ensures |r.1| >= 1 && r.1[0] == LaunchChrome(argv)
    ensures forall i :: 0 <= i < |r.1| ==> !r.1[i].RemoveTempDir?
    ensures r.0.Ok? ==> r.0.value.cleanup == Some(StopLocalChrome(run.port as nat, run.tempDir))
  {
    var url := CdpUrl(run.port);
    if run.launch.Some? then (Err(run.launch.value), [LaunchChrome(argv)])
    else if !run.ready then
      (Err(Raised("Chrome启动超时，CDP端口: " + NatToString(run.port))), [LaunchChrome(argv), WaitReady(url), TerminateChrome])
    else
      var pre := [LaunchChrome(argv), WaitReady(url), ConnectOverCdp(url)];
      match run.connect
      case Err(e) => (Err(e), pre)
      case Ok(_) =>
        match run.newContext
        case Err(e) => (Err(e), pre + [NewContext(None)])
        case Ok(ctx) =>
          match artifacts
          case Err(e) => (Err(e), pre + [NewContext(None)])
          case Ok(a) =>
            (Ok(Created(ctx, WithConsoleLog(a, run.log), Some(StopLocalChrome(run.port as nat, run.tempDir)))),
             pre + [NewContext(None), InstallConsoleLog, InstallDownloadListener])
  }

  /** The creator given what building its artifacts gives. */
  function LocalWith(run: LocalRun, artifacts: Result<BrowserArtifacts, Exc>): (r: CreatorRun)
    ensures r.steps == [] <==> !ValidLocalConfig(run.config) || !run.pathExists
    ensures r.outcome.CreatorReturned? ==>
      && artifacts.Ok? && run.launch.None? && run.ready && r.outcome.created.artifacts == WithConsoleLog(artifacts.value, run.log)
      && |r.steps| >= 2 && r.steps[|r.steps| - 2..] == [InstallConsoleLog, InstallDownloadListener]
    ensures artifacts.Err? ==> r.outcome.CreatorRaised?
  {
    if !ValidLocalConfig(run.config) then CreatorRun(CreatorRaised(ValueError(LocalConfigMessage)), [])
    else if !run.pathExists then
      CreatorRun(CreatorRaised(FileNotFoundError("Chrome路径不存在: " + run.config.value.chromePath.value)), [])
    else
      var argv := [run.config.value.chromePath.value]
                  + ChromeArgs(run.port, run.tempDir, run.config.value.chromeArgs, run.proxyLocation, run.proxy);
      var (result, steps) := LocalAttempt(run, argv, artifacts);
      match result
      case Ok(c) => CreatorRun(CreatorReturned(c), steps)
      case Err(e) => CreatorRun(CreatorRaised(e), steps + LocalFailureCleanup(run, run.launch.None?))
  }

  /** `_create_local_custom_browser` with the default artifacts, which
      get the console log path when its file could be created. */
  function CreateLocalCustom(run: LocalRun): (r: CreatorRun)
    ensures r.outcome.CreatorReturned? ==>
      && r.outcome.created.artifacts
         == DefaultArtifacts().(browserConsoleLogPath := if run.log.created then Some(run.log.path) else None)
      && r.outcome.created.cleanup == Some(StopLocalChrome(run.port as nat, run.tempDir))
  {
    LocalWith(run, Ok(DefaultArtifacts()))
  }

  /** Without a Chrome path, or when it does not exist, nothing outside is
      touched. */
  lemma LocalPreconditions(run: LocalRun)
    ensures !ValidLocalConfig(run.config) ==>
      CreateLocalCustom(run) == CreatorRun(CreatorRaised(ValueError(LocalConfigMessage)), [])
    ensures ValidLocalConfig(run.config) && !run.pathExists ==>
      CreateLocalCustom(run).steps == [] && CreateLocalCustom(run).outcome.error.FileNotFoundError?
  {
  }

  /** Chrome is started as the configured executable with the debugging
      port and the fresh profile directory; on failure the directory is
      removed last, after the process is stopped when it still runs; on
      success nothing is removed and the cleanup will do it. */
  lemma LocalCleanupOrder(run: LocalRun)
    requires ValidLocalConfig(run.config) && run.pathExists
    ensures var r := CreateLocalCustom(run);
      && |r.steps| >= 2 && r.steps[0].LaunchChrome?
      && r.steps[0].argv[0] == run.config.value.chromePath.value
      && r.steps[0].argv[1] == "--remote-debugging-port=" + NatToString(run.port)
      && r.steps[0].argv[2] == "--user-data-dir=" + run.tempDir
      && (r.outcome.CreatorRaised? ==>
            && r.steps[|r.steps| - 1] == RemoveTempDir(run.tempDir)
            && (forall i :: 0 <= i < |r.steps| - 1 ==> !r.steps[i].RemoveTempDir?)
            && (run.launch.None? && run.runningAtFailure ==> r.steps[|r.steps| - 2] == TerminateChrome))
      && (r.outcome.CreatorReturned? ==>
            && (forall i :: 0 <= i < |r.steps| ==> !r.steps[i].RemoveTempDir?)
            && r.outcome.created.cleanup == Some(StopLocalChrome(run.port as nat, run.tempDir)))
  {
    var argv := [run.config.value.chromePath.value]
                + ChromeArgs(run.port, run.tempDir, run.config.value.chromeArgs, run.proxyLocation, run.proxy);
    var (result, steps) := LocalAttempt(run, argv, Ok(DefaultArtifacts()));
    if result.Err? {
      var tail := LocalFailureCleanup(run, run.launch.None?);
      assert CreateLocalCustom(run).steps == steps + tail;
    }
  }

  /** `_create_local_custom_browser` as written: `tempfile` is not imported
      in browser_factory.py, so `tempfile.mkdtemp` raises NameError right
      after the checks, before anything is started. */
  function CreateLocalCustomAsWritten(run: LocalRun): (r: CreatorRun)
    ensures r.outcome.CreatorRaised?
    ensures ValidLocalConfig(run.config) && run.pathExists ==> r.steps == []
  {
    if !ValidLocalConfig(run.config) || !run.pathExists then CreateLocalCustom(run)
    else CreatorRun(CreatorRaised(NameError("tempfile")), [])
  }

  /** With a valid configuration the code as written never starts Chrome,
      while the intended creator does. */
  lemma LocalCustomNeverStarts(run: LocalRun)
    requires ValidLocalConfig(run.config) && run.pathExists
    ensures CreateLocalCustomAsWritten(run).outcome == CreatorRaised(NameError("tempfile"))
    ensures CreateLocalCustomAsWritten(run).steps == []
    ensures CreateLocalCustom(run).steps[0].LaunchChrome?
  {
    LocalCleanupOrder(run);
  }

  /** Line 795 makes the same `build_browser_artifacts(**kwargs)` call
      as the AdsPower creator, so once `tempfile` is imported the local
      creator still raises TypeError after Chrome is up and connected, and
      its `except` block stops Chrome and removes the profile directory;
      the intended creator returns the context. */
  lemma LocalArtifactsCallFails(run: LocalRun, ctx: ContextId)
    requires ValidLocalConfig(run.config) && run.pathExists && run.launch.None? && run.ready
    requires run.connect.Ok? && run.newContext == Ok(ctx)
    ensures var w := LocalWith(run, ArtifactsFromKwargsAsWritten());
      && w.outcome.CreatorRaised? && w.outcome.error.TypeError?
      && |w.steps| >= 2 && w.steps[|w.steps| - 1] == RemoveTempDir(run.tempDir)
      && (run.runningAtFailure ==> w.steps[|w.steps| - 2] == TerminateChrome)
    ensures CreateLocalCustom(run).outcome.CreatorReturned?
    ensures CreateLocalCustom(run).outcome.created.context == ctx
  {
    LocalArtifactsErrorCleansUp(run, ArtifactsFromKwargsAsWritten().error);
  }

  /** Whatever building the artifacts raises is raised again after
      Chrome is stopped, when still running, and its directory removed. */
  lemma LocalArtifactsErrorCleansUp(run: LocalRun, e: Exc)
    requires ValidLocalConfig(run.config) && run.pathExists && run.launch.None? && run.ready
    requires run.connect.Ok? && run.newContext.Ok?
    ensures var w := LocalWith(run, Err(e));
      && w.outcome == CreatorRaised(e)
      && |w.steps| >= 2 && w.steps[|w.steps| - 1] == RemoveTempDir(run.tempDir)
      && (run.runningAtFailure ==> w.steps[|w.steps| - 2] == TerminateChrome)
  {
  }

  /** As for AdsPower, the local creator's log path survives the
      factory's second set-up. */
  lemma LocalLogSurvivesFactory(creators: map<string, Creator>, browserType: string, run: LocalRun,
                                closeError: Option<Exc>, log: NewLog)
    requires browserType in creators && CreateLocalCustom(run).outcome.CreatorReturned?
    ensures var r := CreateWith(creators, browserType, CreateLocalCustom(run).outcome, None, closeError, log);
      && r.result.Ok?
      && r.result.value.artifacts.browserConsoleLogPath
         == if run.log.created then Some(run.log.path) else if log.created then Some(log.path) else None
  {
  }
}
