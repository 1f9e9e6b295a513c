/** `optimized_create_local_custom_browser`
    (skyvern/webeye/browser_factory_optimizations.py:317-380): the local
    Chrome creator built on the port, process and connection managers. It
    is proved to hand back the port and every process record it took
    whenever it fails, unless stopping Chrome itself failed. */
module Optimized {
  import opened Wrappers
  import opened PyStr
  import opened Errors
  import opened Schemas
  import opened Artifacts
  import opened Factory
  import opened Ports
  import opened Processes
  import opened Connections
  import Creators

  /** The outside answers of one creation: the configuration and whether
      its executable exists; the port draws and probes; what `mkdtemp` and
      `Popen` produced; whether the debugging port came up; the clock and
      the connection attempts; the new context; the console log file
      `set_browser_console_log` tried to make; and what the operating
      system answers to the stop after a start-up timeout and to the stop
      in the failure handler. */
  datatype OptimizedInputs = OptimizedInputs(
    config: Option<BrowserConfig>, pathExists: bool,
    choose: nat -> RangePort, inUse: int -> bool,
    tempDir: Result<string, Exc>, launch: Result<ProcessId, Exc>,
    ready: bool, stopAfterTimeout: StopInputs,
    now: int, connect: nat -> Result<BrowserId, Exc>,
    newContext: Result<ContextId, Exc>, log: NewLog, stopAfterFailure: StopInputs)

  /** `connect_with_retry`'s default number of attempts. */
  const ConnectAttempts: nat := 3

  /** Every tracked process holds the port it was recorded under. */
  predicate PortsHeld(ports: PortManager, chrome: ChromeProcessManager)
    reads ports, chrome
  {
    chrome.processes.Keys <= ports.usedPorts
  }

  method CreateOptimizedLocalCustom(ports: PortManager, chrome: ChromeProcessManager, cdp: CDPConnectionManager,
                                    answers: OptimizedInputs)
    returns (r: CreatorOutcome, port: Option<int>, installed: seq<Creators.Step>)
    requires chrome.Valid() && cdp.Valid() && PortsHeld(ports, chrome)
    modifies ports, chrome, cdp
    ensures chrome.Valid() && cdp.Valid() && PortsHeld(ports, chrome)
    ensures !Creators.ValidLocalConfig(answers.config) ==>
      r == CreatorRaised(ValueError(Creators.LocalConfigMessage)) && port.None?
    ensures Creators.ValidLocalConfig(answers.config) && !answers.pathExists ==>
      r.CreatorRaised? && r.error.FileNotFoundError? && port.None?
    ensures port.None? ==> r.CreatorRaised? && ports.usedPorts == old(ports.usedPorts) && unchanged(chrome, cdp)
    ensures port.Some? ==> 9222 <= port.value < 9999 && port.value !in old(ports.usedPorts)
    ensures r.CreatorReturned? ==>
      && port.Some? && port.value in ports.usedPorts && answers.launch.Ok? && answers.newContext.Ok?
      && chrome.processes == old(chrome.processes)[port.value := answers.launch.value]
      && r.created.context == answers.newContext.value
      && r.created.cleanup == Some(StopManagedChrome(port.value))
      && r.created.artifacts
         == DefaultArtifacts().(browserConsoleLogPath := if answers.log.created then Some(answers.log.path) else None)
    ensures installed == if r.CreatorReturned? then [Creators.InstallConsoleLog, Creators.InstallDownloadListener] else []
    ensures r.CreatorRaised? && port.Some? && !(answers.stopAfterFailure.running && answers.stopAfterFailure.signalFails) ==>
      port.value !in ports.usedPorts && port.value !in chrome.processes
  {
    port := None;
    installed := [];
    if !Creators.ValidLocalConfig(answers.config) {
      return CreatorRaised(ValueError(Creators.LocalConfigMessage)), port, installed;
    }
    var chromePath := answers.config.value.chromePath.value;
    if !answers.pathExists {
      return CreatorRaised(FileNotFoundError("Chrome路径不存在: " + chromePath)), port, installed;
    }
    var got := ports.GetAvailablePort(answers.choose, answers.inUse);
    if got.Err? {
      return CreatorRaised(got.error), port, installed;
    }
    port := Some(got.value);
    r, installed := LaunchOnPort(ports, chrome, cdp, answers, chromePath, got.value);
  }

  /** The creator from `start_chrome` on, once `port` is reserved: Chrome
      is started, waited for and connected to; on success the console log
      and the download listener are installed (`installed`, in order) and
      the artifacts get the log path; any failure stops Chrome again before
      the error is raised. */
  method LaunchOnPort(ports: PortManager, chrome: ChromeProcessManager, cdp: CDPConnectionManager,
                      answers: OptimizedInputs, chromePath: string, port: int)
    returns (r: CreatorOutcome, installed: seq<Creators.Step>)
    requires chrome.Valid() && cdp.Valid() && PortsHeld(ports, chrome) && port in ports.usedPorts
    requires answers.config.Some?
    modifies ports, chrome, cdp
    ensures chrome.Valid() && cdp.Valid() && PortsHeld(ports, chrome)
    ensures r.CreatorReturned? ==>
      && port in ports.usedPorts && answers.launch.Ok? && answers.newContext.Ok?
      && chrome.processes == old(chrome.processes)[port := answers.launch.value]
      && r.created.context == answers.newContext.value
      && r.created.cleanup == Some(StopManagedChrome(port))
      && r.created.artifacts == WithConsoleLog(DefaultArtifacts(), answers.log)
    ensures installed == if r.CreatorReturned? then [Creators.InstallConsoleLog, Creators.InstallDownloadListener] else []
    ensures r.CreatorRaised? && !(answers.stopAfterFailure.running && answers.stopAfterFailure.signalFails) ==>
      port !in ports.usedPorts && port !in chrome.processes
    ensures answers.tempDir.Err? ==> r == CreatorRaised(answers.tempDir.error)
    ensures answers.tempDir.Ok? && answers.launch.Err? ==> r == CreatorRaised(answers.launch.error)
    ensures answers.tempDir.Ok? && answers.launch.Ok? && !answers.ready ==>
      r == CreatorRaised(Raised("Chrome启动超时，CDP端口: " + IntToString(port)))
  {
    installed := [];
    var error: Exc;
    var started := StartTracked(ports, chrome, chromePath, answers.config.value.chromeArgs.GetOr([]), port,
                                answers.tempDir, answers.launch);
    if started.Err? {
      error := started.error;
    } else {
      var cdpUrl := "http://localhost:" + IntToString(port);
      if !answers.ready {
        StopAndRelease(ports, chrome, port, answers.stopAfterTimeout);
        error := Raised("Chrome启动超时，CDP端口: " + IntToString(port));
      } else {
        var failure := ConnectAndOpen(cdp, answers, cdpUrl);
        if failure.None? {
          installed := [Creators.InstallConsoleLog, Creators.InstallDownloadListener];
          return CreatorReturned(Created(answers.newContext.value, WithConsoleLog(DefaultArtifacts(), answers.log),
                                         Some(StopManagedChrome(port)))), installed;
        }
        error := failure.value;
      }
    }
    StopAndRelease(ports, chrome, port, answers.stopAfterFailure);
    return CreatorRaised(error), installed;
  }

  /** `chrome_manager.start_chrome(...)` on a reserved port: on success
      the process is recorded under it; on failure the port is released
      and nothing is recorded under it. */
  method StartTracked(ports: PortManager, chrome: ChromeProcessManager, chromePath: string, args: seq<string>,
                      port: int, tempDir: Result<string, Exc>, launch: Result<ProcessId, Exc>)
    returns (r: Result<ProcessId, Exc>)
    requires chrome.Valid() && PortsHeld(ports, chrome) && port in ports.usedPorts
    modifies ports, chrome
    ensures chrome.Valid() && PortsHeld(ports, chrome)
    ensures r.Ok? <==> tempDir.Ok? && launch.Ok?
    ensures r.Ok? ==> port in ports.usedPorts && chrome.processes == old(chrome.processes)[port := launch.value]
    ensures r.Err? ==> port !in ports.usedPorts && port !in chrome.processes
    ensures r.Err? ==> r.error == if tempDir.Err? then tempDir.error else launch.error
  {
    var argv, steps;
    r, argv, steps := chrome.StartChrome(chromePath, args, port, ports, tempDir, launch);
  }

  /** `chrome_manager.stop_chrome(port)`: a port that is tracked,
      or already released, stays so; unless a signal raised, the process
      record and the port are both gone afterwards. */
  method StopAndRelease(ports: PortManager, chrome: ChromeProcessManager, port: int, s: StopInputs)
    requires chrome.Valid() && PortsHeld(ports, chrome)
    requires port in chrome.processes || port !in ports.usedPorts
    modifies ports, chrome
    ensures chrome.Valid() && PortsHeld(ports, chrome)
    ensures port in chrome.processes || port !in ports.usedPorts
    ensures !(s.running && s.signalFails) ==> port !in ports.usedPorts && port !in chrome.processes
  {
    var _, _ := chrome.StopChrome(port, ports, s);
  }

  /** Connecting over CDP and opening the context: the first error of the
      two, or None when both succeeded. */
  method ConnectAndOpen(cdp: CDPConnectionManager, answers: OptimizedInputs, cdpUrl: string)
    returns (failure: Option<Exc>)
    requires cdp.Valid()
    modifies cdp
    ensures cdp.Valid()
    ensures failure.None? ==> answers.newContext.Ok?
  {
    var browser, _, _ := cdp.ConnectWithRetry(cdpUrl, ConnectAttempts, answers.now, answers.connect);
    if browser.Err? {
      return Some(browser.error);
    }
    if answers.newContext.Err? {
      return Some(answers.newContext.error);
    }
    return None;
  }

  // ---------------------------------------------------------------------
  // Loading the module as written

  /** The names bound when the `def` at line 317 runs: built-ins, the
      imports at lines 2-12 and the module's own definitions above it. */
  const BoundAsWritten: set<string> := {
    "dict", "str", "tuple", "int", "list",
    "asyncio", "aiohttp", "subprocess", "tempfile", "random", "structlog", "time", "Path",
    "Dict", "Any", "Optional", "Set", "Playwright", "BrowserContext", "BrowserConfig", "BrowserType",
    "LOG", "PortManager", "ChromeProcessManager", "CDPConnectionManager", "chrome_manager", "cdp_manager"}

  /** The names the creator's signature and body use that the module does
      not import. */
  const MissingImports: set<string> := {
    "ProxyLocation", "BrowserArtifacts", "BrowserCleanupFunc", "BrowserContextFactory",
    "set_browser_console_log", "set_download_file_listener"}

  /** The names a `def` statement evaluates, in order, when annotations are
      evaluated as the function is defined: the parameter annotations, then
      the return annotation. */
  const SignatureNames: seq<string> := [
    "Playwright", "ProxyLocation", "dict", "str", "dict", "tuple", "BrowserContext", "BrowserArtifacts", "BrowserCleanupFunc"]

  function FirstUnbound(names: seq<string>, bound: set<string>): (r: Option<string>)
    ensures r.None? <==> forall i :: 0 <= i < |names| ==> names[i] in bound
    ensures r.Some? ==> r.value !in bound && exists i :: (0 <= i < |names| && names[i] == r.value &&
                          forall j :: 0 <= j < i ==> names[j] in bound)
  {
    if names == [] then None
    else if names[0] !in bound then Some(names[0])
    else
      var rest := FirstUnbound(names[1..], bound);
      if rest.Some? then
        assert forall i :: 0 <= i < |names[1..]| ==> names[1..][i] == names[i + 1];
        rest
      else rest
  }

  /** Running the `def` at line 317 with the names in `bound`. */
  function DefineCreator(bound: set<string>): Result<(), Exc> {
    match FirstUnbound(SignatureNames, bound)
    case Some(name) => Err(NameError(name))
    case None => Ok(())
  }

  /** As written, defining the creator raises NameError for `ProxyLocation`,
      so importing the module fails before any of its managers can be
      used. */
  lemma SignatureNeedsProxyLocation()
    ensures DefineCreator(BoundAsWritten) == Err(NameError("ProxyLocation"))
  {
    assert SignatureNames[0] in BoundAsWritten;
    assert SignatureNames[1..][0] == "ProxyLocation" && "ProxyLocation" !in BoundAsWritten;
  }

  /** With the missing imports added the definition goes through. */
  lemma ImportsCompleteTheSignature()
    ensures DefineCreator(BoundAsWritten + MissingImports) == Ok(())
  {
    forall i | 0 <= i < |SignatureNames| ensures SignatureNames[i] in BoundAsWritten + MissingImports {
    }
  }
}
