# Skyvern browser sessions, modelled in Dafny

This project models the part of Skyvern that owns a browser session for an
automation agent. It covers five pieces:

- **The browser state.** `BrowserState` remembers a working page, the
  Playwright context, the artifacts and a cleanup callback.
- **The factory.** `BrowserContextFactory` holds a registry of context
  creators, including the AdsPower and local-Chrome creators.
- **The resource managers.** These are the CDP port allocator, the Chrome
  process table and the CDP connection cache.
- **AdsPower responses.** These are the replies of the AdsPower local API
  and how they are read.
- **The support code.** This is the schema types and a whitespace
  normaliser.

Everything that leaves the process becomes an input of the model. That
covers Playwright, HTTP, subprocesses, sockets, the filesystem, `random` and
the clock. Each becomes a value or a function from attempt number to
outcome. Operations with effects return the ordered list of effects they
caused, as datatype values such as `Creators.Step`, `Processes.ProcessStep`
and `Session.CloseStep`.

Objects that the program updates in place are Dafny classes:

- `Session.BrowserState`
- `Factory.BrowserContextFactory`
- `Ports.PortManager`
- `Processes.ChromeProcessManager`
- `Connections.CDPConnectionManager`

Each method's `ensures` ties the new state to a function of the old state.
The properties are proved as lemmas about those functions, or as
invariants the methods keep. The loops of the source stay loops. Each is
proved against a recursive reference function, or, for port probing and
the cleanup of all processes, against quantified `ensures` kept by loop
invariants:

- page closing;
- navigation retries;
- port probing;
- connection retries;
- the proxy filter;
- the AdsPower profile list;
- cleanup of all processes.

Modules, one per file:

- `Wrappers`: Option and Result.
- `PyStr`: the CPython `str` operations the code relies on.
- `Errors`: the exceptions raised and `str()`/`repr()` of them.
- `Schemas`: skyvern/forge/sdk/schemas/browser.py.
- `StringUtil`: skyvern/webeye/string_util.py.
- `Urls`: the part of `urllib.parse.urlsplit` used for proxies.
- `Proxy`, `Artifacts`, `Listeners`, `BrowserArgs`, `Factory`, `Creators`
  and `Session`: skyvern/webeye/browser_factory.py.
- `AdsPower`: skyvern/webeye/adspower_service.py.
- `Ports`, `Processes`, `Connections` and `Optimized`:
  skyvern/webeye/browser_factory_optimizations.py.

The allocator probes ports while it holds its lock, and the backoff has no
cap:

- The port allocator probes the port while it holds its lock
  (browser_factory_optimizations.py:28-34). It does not probe outside the
  lock and re-check afterwards.
- The connection backoff is `2**attempt` seconds with no cap
  (browser_factory_optimizations.py:274, 280).

## Model

| member | source | states |
|---|---|---|
| Schemas.BrowserTypeValues | skyvern/forge/sdk/schemas/browser.py:10-19 | a string names a browser type exactly when it is "skyvern_default", "local_custom" or "adspower", and each type's value names that type again |
| Schemas.ParseBrowserType | skyvern/forge/sdk/schemas/browser.py:10-19 | a recognised string is the value of the type it yields |
| Schemas.DefaultBrowserConfig | skyvern/forge/sdk/schemas/browser.py:22-45 | the default config has type SKYVERN_DEFAULT and no chrome path, chrome args, AdsPower user id or group id |
| Schemas.NewBrowserInfo | skyvern/forge/sdk/schemas/browser.py:48-55 | the four required fields are kept; remark and group id default to None |
| Schemas.NewAdsPowerStatus | skyvern/forge/sdk/schemas/browser.py:58-62 | a status built without a browser list has the empty list |
| StringUtil.RemoveWhitespace | skyvern/webeye/string_util.py:4-5 | the output is never longer than the input |
| StringUtil.OutputIsCollapsed | skyvern/webeye/string_util.py:4-5 | the output has no '\n', no '\t' and no two adjacent spaces |
| StringUtil.VisibleKept | skyvern/webeye/string_util.py:4-5 | deleting ' ', '\n' and '\t' from input and output gives the same string |
| StringUtil.OtherWhitespaceUntouched | skyvern/webeye/string_util.py:4-5 | a character other than the three blanks (such as '\r') occurs in the output exactly when it occurs in the input |
| StringUtil.Idempotent | skyvern/webeye/string_util.py:4-5 | applying the function twice gives the same result as once |
| StringUtil.FixedPoints | skyvern/webeye/string_util.py:4-5 | a string is returned unchanged exactly when it has no '\n', no '\t' and no double space |
| StringUtil.NoBlanksUnchanged | skyvern/webeye/string_util.py:4-5 | a string with none of the three blanks is returned unchanged |
| StringUtil.FirstCharacter | skyvern/webeye/string_util.py:4-5 | the output is empty exactly when the input is; a leading blank run becomes one space, any other first character is kept |
| Errors.Repr | skyvern/webeye/browser_factory.py:1153-1159 | `repr` of an exception contains its message when the message is not empty |
| Errors.NetworkErrorSurvivesWrapping | skyvern/webeye/browser_factory.py:1104-1107 | a "net::ERR" cause is still recognised after it is wrapped by the factory or by the navigation error |
| Proxy.SetupProxy | skyvern/webeye/browser_factory.py:326-361 | returns None exactly when no comma-separated, stripped entry of the pool is a valid proxy URL; otherwise the chosen valid entry is the server, with the user name and password from its URL when it carries both, else "" and "" |
| Proxy.IsValidProxyUrl | skyvern/webeye/browser_factory.py:364-370 | a URL accepted as a proxy starts with "http://", "https://" or "socks5://" |
| Proxy.ValidOnlyMembers | skyvern/webeye/browser_factory.py:337-342 | an entry survives the filter exactly when it is in the pool and passes the validity check |
| Proxy.FilterValid | skyvern/webeye/browser_factory.py:337-342 | the loop collects, in pool order, exactly the entries that pass the validity check |
| Proxy.PoolEntries | skyvern/webeye/browser_factory.py:331 | every pool entry is non-empty and already stripped |
| Proxy.GetProxyServerCreds | skyvern/webeye/browser_factory.py:375-380 | credentials are reported only when both user name and password are non-empty |
| Proxy.ValidProxyHasCreds | skyvern/webeye/browser_factory.py:364-380 | extracting credentials from a valid proxy URL never raises |
| Proxy.RenderedProxyIsValid | skyvern/webeye/browser_factory.py:364-372 | every URL of the form scheme://[user[:pass]@]host[:port] with an http, https or socks5 scheme and a plain host is accepted as a proxy URL |
| Proxy.RenderedProxyCreds | skyvern/webeye/browser_factory.py:375-380 | the credentials read back from such a URL are exactly the user name and password it was built from |
| BrowserArgs.GetCdpPort | skyvern/webeye/browser_factory.py:383-390 | an int keyword is returned as is, a bool as 0 or 1, a str as `int(str)` or None when that raises, and any other value or no value gives None |
| BrowserArgs.CdpPortTextAgrees | skyvern/webeye/browser_factory.py:383-390 | a port given as its decimal text gives the same port as the int |
| BrowserArgs.CdpPortRejectsWords | skyvern/webeye/browser_factory.py:383-390 | a non-numeric port text such as "auto" gives None, as `int()` raises on it |
| BrowserArgs.BrowserFlags | skyvern/webeye/browser_factory.py:199-211 | the flag list starts with the four baseline flags |
| BrowserArgs.PortFlagRoundTrip | skyvern/webeye/browser_factory.py:199-211 | the debugging-port flag in the list gives back the CDP port, and there is none when the port is absent or 0 |
| BrowserArgs.ExtensionFlags | skyvern/webeye/browser_factory.py:186-211 | with extensions, the last two flags load exactly the comma-joined extension paths |
| BrowserArgs.BuildBrowserArgs | skyvern/webeye/browser_factory.py:178-238 | the launch options carry the flag list built from the debugging port and the extension paths, ignore "--enable-automation", use colour scheme "no-preference", and carry a proxy exactly when proxies are enabled and the pool has a valid entry, that entry being a valid proxy URL from the pool |
| BrowserArgs.ExtensionPaths | skyvern/webeye/browser_factory.py:189-197 | extension paths are given only when extensions are configured with a base path whose directory was created, and then there is one per extension, in order, joined onto the base path |
| Artifacts.BuildBrowserArtifacts | skyvern/webeye/browser_factory.py:240-254 | each field of the artifacts is the argument given, and a missing video list becomes the empty list |
| Artifacts.DefaultArtifacts | skyvern/webeye/browser_factory.py:298-303 | default artifacts have no videos and no console log path |
| Artifacts.AppendBrowserConsoleLog | skyvern/webeye/browser_factory.py:306-312 | without a log path nothing is written and 0 is returned; otherwise the message length is returned and only the log file changes |
| Artifacts.ReadAfterAppend | skyvern/webeye/browser_factory.py:306-323 | reading the log after an append gives the old contents followed by the message |
| Artifacts.AppendsConcatenate | skyvern/webeye/browser_factory.py:306-312 | two appends leave the same files as one append of both messages |
| Artifacts.SetBrowserConsoleLog | skyvern/webeye/browser_factory.py:48-72 | with no log path, a failed creation leaves the set-up as it was and a successful one sets the path, creates the empty file and registers one console handler; with a path already set, files and artifacts are kept and one more handler is registered |
| Artifacts.SetConsoleLogTwice | skyvern/webeye/browser_factory.py:48-72 | once a log path is set, a second set-up keeps the path and the files but registers a second console handler |
| Artifacts.DispatchAppendsEveryHandler | skyvern/webeye/browser_factory.py:64-72 | a console message appends the line of every registered handler to the log, in registration order |
| Artifacts.ConsoleLinesWrittenOnce | skyvern/webeye/browser_factory.py:48-72 | after one set-up on a fresh log, a console message is written exactly once |
| Artifacts.ConsoleLinesWrittenTwice | skyvern/webeye/browser_factory.py:271 | after the creator's set-up (lines 679 and 798) and the factory's, a console message is written twice |
| Artifacts.FreshLogHoldsAppendedLines | skyvern/webeye/browser_factory.py:48-72 | a freshly set-up log holds exactly the lines appended to it since |
| Artifacts.WithConsoleLog | skyvern/webeye/browser_factory.py:48-63 | the caller's artifacts after the set-up: a log path already there is kept, otherwise the path is the fresh one exactly when its file was created; every other field is unchanged |
| Artifacts.WithConsoleLogAgrees | skyvern/webeye/browser_factory.py:48-72 | the set-up does the same to the artifacts whatever the files and the handlers already registered |
| Artifacts.WithConsoleLogTwice | skyvern/webeye/browser_factory.py:48-63 | a second set-up keeps the path the first recorded; when the first could not create its file, the second decides |
| Artifacts.RecordVideo | skyvern/webeye/browser_factory.py:1052-1076 | the video list grows to at least index+1 and never shrinks; entries other than index are kept or are empty padding; an existing video path is never overwritten |
| Artifacts.RecordVideoKeepsPaths | skyvern/webeye/browser_factory.py:1052-1076 | an entry that already has a path is unchanged, and no entry's artifact id changes |
| Artifacts.RecordVideoIdempotent | skyvern/webeye/browser_factory.py:1052-1076 | recording the same page at the same index twice changes nothing more |
| Artifacts.RecordVideoFindsPage | skyvern/webeye/browser_factory.py:1052-1076 | an index without a path gets the page's video path |
| Listeners.TimestampRoundTrip | skyvern/webeye/browser_factory.py:66 | the "%Y-%m-%dT%H:%M:%S.%fZ" timestamp parses back to the same date and time |
| Listeners.TimestampPieces | skyvern/webeye/browser_factory.py:66 | the timestamp is 27 characters with zero-padded fields and separators in fixed places |
| Listeners.ConsoleLine | skyvern/webeye/browser_factory.py:66-68 | a console line starts with the timestamp and '[' and ends with a newline |
| Listeners.ConsoleLineRoundTrip | skyvern/webeye/browser_factory.py:66-68 | a console line parses back to its time, message type, and text followed by the key=value pairs |
| Listeners.OnDownload | skyvern/webeye/browser_factory.py:78-128 | a file is renamed only when its path has no suffix: with the suggested name's suffix if it has one, else with the URL's suffix; a timeout cancels the download |
| Listeners.RenamedFileKeepsItsSuffix | skyvern/webeye/browser_factory.py:84-113 | after the rename the path's suffix is the one added |
| Listeners.DownloadRenamedOnce | skyvern/webeye/browser_factory.py:84-113 | a renamed file is left as it is the next time |
| Listeners.DownloadExample | skyvern/webeye/browser_factory.py:84-113 | a download saved without suffix and suggested as "report.pdf" is renamed to end in ".pdf" |
| Listeners.DownloadListenersRenameOnce | skyvern/webeye/browser_factory.py:75-133 | however many download listeners are installed (lines 272, 682 and 801), the saved file ends up as it would with one: later listeners find the saved path gone and their failed renames are swallowed |
| Factory.BrowserContextFactory.RegisterType | skyvern/webeye/browser_factory.py:256-258 | registering maps the name to the creator and leaves every other entry |
| Factory.BrowserContextFactory.RegisterBuiltins | skyvern/webeye/browser_factory.py:613-617 | the module registrations add the five built-in creators |
| Factory.BrowserContextFactory.CreateBrowserContext | skyvern/webeye/browser_factory.py:260-289 | an unregistered type raises UnknownBrowserType and closes nothing; creation succeeds exactly when the registered creator returns and the set-up after it does not raise; then the creator's context and cleanup are returned, with its artifacts carrying the console log path `set_browser_console_log` set on them |
| Factory.CreateWith | skyvern/webeye/browser_factory.py:260-289 | an unregistered type raises UnknownBrowserType; creation succeeds exactly when the creator returns and the set-up that follows it does not raise, and then returns the creator's context and cleanup, with the artifacts updated in place by `set_browser_console_log` (line 271); the context is closed exactly when set-up fails after it exists |
| Factory.CreateErrors | skyvern/webeye/browser_factory.py:280-289 | a creator's error is wrapped in UnknownErrorWhileCreatingBrowserContext unless it is an UnknownBrowserType; an error from the close replaces it |
| Factory.CreateKeepsNetworkErrors | skyvern/webeye/browser_factory.py:280-289 | a "net::ERR" error of a creator is still recognisable after wrapping |
| Factory.RegistryNames | skyvern/webeye/browser_factory.py:613-617 | the registry keys are the five creator names, and "skyvern_default" and "local_custom" are not among them |
| Factory.RegistrationBeforeDefinition | skyvern/webeye/browser_factory.py:613-620 | loading the module as written raises NameError for `_create_adspower_browser` |
| Factory.DefinitionsFirstRegistersAll | skyvern/webeye/browser_factory.py:613-704 | with the definitions before the registrations, loading registers all five creators |
| Factory.RegisterAll | skyvern/webeye/browser_factory.py:613-617 | once all five creators are defined, the registrations add exactly the built-in table to what was registered |
| Creators.CreateAdsPower | skyvern/webeye/browser_factory.py:620-700 | when the intended creator returns, the config names an AdsPower user, the artifacts are the defaults except for the console log path, which is the fresh one exactly when its file was created (line 679), and the cleanup stops that user's profile |
| Creators.AdsPowerWith | skyvern/webeye/browser_factory.py:620-700 | nothing is done exactly when the config lacks a user id or the service is unavailable; a returned context comes from a connected browser with the given artifacts as `set_browser_console_log` leaves them, after the console log and the download listener were installed last; an artifacts error always raises, and a raise after the profile was started ends by stopping it |
| Creators.CreateAdsPowerAsWritten | skyvern/webeye/browser_factory.py:676 | as written, the creator always raises |
| Creators.AsWrittenStopsProfile | skyvern/webeye/browser_factory.py:676-700 | as written, once the profile was started the creator's last step stops it again |
| Creators.AdsPowerPreconditions | skyvern/webeye/browser_factory.py:641-650 | without a user id the creator raises ValueError; with the service unavailable it raises an error naming the status message; in both cases nothing outside is touched |
| Creators.AdsPowerCleanupOrder | skyvern/webeye/browser_factory.py:654-701 | the profile is started first; on failure it is stopped exactly once, as the last step; on success it is not stopped and the cleanup stops that profile |
| Creators.AdsPowerConnectsToStartedProfile | skyvern/webeye/browser_factory.py:656-663 | after a start the creator waits 3 seconds and connects to "http://" followed by the reported selenium address |
| Creators.AdsPowerArtifactsCallFails | skyvern/webeye/browser_factory.py:676 | as written, passing the creator's keywords on to `build_browser_artifacts` raises TypeError where the intended creator returns the context with the default artifacts plus the console log path |
| Creators.AdsPowerLogSurvivesFactory | skyvern/webeye/browser_factory.py:271 | after the AdsPower creator (line 679) and the factory both set up the console log, the returned path is the creator's when it created its file, else the factory's when it did, else none |
| Creators.ChooseCdpPort | skyvern/webeye/browser_factory.py:733-735 | the chosen port is the first draw in 9222..9999 that is not in use |
| Creators.ChromeArgs | skyvern/webeye/browser_factory.py:741-762 | the debugging port and user-data-dir come first, then the fixed flags, then the user's args in order |
| Creators.LocalWith | skyvern/webeye/browser_factory.py:704-835 | nothing is done exactly when the config lacks a chrome path or the path does not exist; a returned context comes from a launch that raised nothing and a ready Chrome, with the given artifacts as `set_browser_console_log` leaves them, after the console log and the download listener were installed last; an artifacts error always raises |
| Creators.CreateLocalCustom | skyvern/webeye/browser_factory.py:704-835 | when the intended creator returns, the artifacts are the defaults except for the console log path, which is the fresh one exactly when its file was created (line 798), and the cleanup stops the Chrome on the chosen port and removes its temp dir |
| Creators.CreateLocalCustomAsWritten | skyvern/webeye/browser_factory.py:738 | as written, the creator always raises, and with a valid config and an existing path it does so before any step |
| Creators.LocalPreconditions | skyvern/webeye/browser_factory.py:724-730 | without a chrome path the creator raises ValueError; with a missing path it raises FileNotFoundError; no port or temp dir is chosen first |
| Creators.LocalCleanupOrder | skyvern/webeye/browser_factory.py:769-835 | Chrome is launched from the chrome path with the port and user-data-dir flags; on failure the temp dir is removed last and only then, after terminating a still-running process; on success the cleanup stops this Chrome |
| Creators.LocalCustomNeverStarts | skyvern/webeye/browser_factory.py:738 | as written, `tempfile` is unbound, so the creator raises NameError before launching; the intended creator launches Chrome |
| Creators.LocalArtifactsCallFails | skyvern/webeye/browser_factory.py:795 | once `tempfile` is imported, the `build_browser_artifacts(**kwargs)` call still raises TypeError after Chrome is up and connected, and the last steps terminate a still-running Chrome and remove its temp dir; the intended creator returns the new context |
| Creators.LocalArtifactsErrorCleansUp | skyvern/webeye/browser_factory.py:795-835 | whatever building the artifacts raises is raised again, after terminating a still-running Chrome and then removing its temp dir |
| Creators.LocalLogSurvivesFactory | skyvern/webeye/browser_factory.py:271 | after the local creator (line 798) and the factory both set up the console log, the returned path is the creator's when it created its file, else the factory's when it did, else none |
| AdsPower.CheckStatus | skyvern/webeye/adspower_service.py:26-85 | the status built by the loop over the profile list equals `AdsPower.Status` |
| AdsPower.Status | skyvern/webeye/adspower_service.py:26-85 | an unavailable service never reports profiles |
| AdsPower.StatusAvailability | skyvern/webeye/adspower_service.py:36-71 | the service is available exactly when the status endpoint gives 200 and the list endpoint answers; with code 0 there is one profile per list entry, in order, and the message counts them |
| AdsPower.StatusAsWritten | skyvern/webeye/adspower_service.py:26-85 | as written, the status never lists profiles while reporting the service unavailable; the first listed profile raises NameError and turns the reply into "not available" |
| AdsPower.BrowserInfoOf | skyvern/webeye/adspower_service.py:58-65 | missing user id, name or serial number become "", a missing status "Unknown"; remark and group id stay None when missing |
| AdsPower.TimeoutIsReported | skyvern/webeye/adspower_service.py:73-78 | a timeout gives an unavailable status with no profiles and a message containing "超时" |
| AdsPower.OneProfileListed | skyvern/webeye/adspower_service.py:56-71 | a one-entry list with code 0 gives an available status with that one profile |
| AdsPower.MissingImportHidesProfiles | skyvern/webeye/adspower_service.py:56-85 | as written, a non-empty profile list reaches the generic handler and reports the service unavailable; the intended reading lists the profile |
| AdsPower.AsWrittenAgreesOtherwise | skyvern/webeye/adspower_service.py:26-85 | without profiles, the code as written and the intended reading agree |
| AdsPower.StartBrowser | skyvern/webeye/adspower_service.py:87-117 | start succeeds exactly when the reply has code 0, and then echoes the user id; a failure raises a "启动AdsPower浏览器失败" error |
| AdsPower.StartedAddresses | skyvern/webeye/adspower_service.py:106-113 | the selenium address is "http://" + ws.selenium and the puppeteer address is "ws://" + ws.puppeteer |
| AdsPower.StartRefusalKeepsMessage | skyvern/webeye/adspower_service.py:103-104 | a refusal's error contains the vendor's msg, or "未知错误" without one |
| AdsPower.StopBrowser | skyvern/webeye/adspower_service.py:119-137 | stop reports true exactly when the reply has code 0; a failed request gives false |
| Session.GetWorkingIsStable | skyvern/webeye/browser_factory.py:1007-1017 | the working page is None without a remembered page, context or pages, and is otherwise the context's last page; the remembered page is re-pointed to it and asking again gives the same page |
| Session.GetWorkingKeepsVideoPaths | skyvern/webeye/browser_factory.py:1007-1017 | looking up the working page never loses a recorded video path |
| Session.AssertPageIsWorking | skyvern/webeye/browser_factory.py:892-897 | asserting the page succeeds exactly when there is a working page, returns it, and otherwise raises MissingBrowserStatePage |
| Session.Survivors | skyvern/webeye/browser_factory.py:899-912 | only the working page and pages whose close failed remain |
| Session.SurvivorsKeep | skyvern/webeye/browser_factory.py:899-912 | the working page and every page whose close failed remain |
| Session.OnlyWorkingPageLeft | skyvern/webeye/browser_factory.py:899-912 | when every close succeeds, only the working page is left |
| Session.CloseOthersKeepsWorking | skyvern/webeye/browser_factory.py:899-912 | closing the other pages keeps the working page, the context and the cleanup |
| Session.CloseCurrentOutcome | skyvern/webeye/browser_factory.py:1140-1151 | the close reports success exactly when there was no context or its close succeeded, and then no context or page is left; otherwise the state keeps its context and working page |
| Session.NavigateOutcome | skyvern/webeye/browser_factory.py:969-1005 | with 0 retries nothing is attempted; navigation succeeds exactly when some attempt succeeds; a failure raises FailedToNavigateToUrl with the last attempt's error after one-second pauses between the attempts; success on attempt j follows j one-second pauses and a final 5-second settle |
| Session.WebPages | skyvern/webeye/browser_factory.py:950-955 | the page filter fails only with "Invalid IPv6 URL" and otherwise keeps only web pages of the context |
| Session.ExistingPageIsFirstWebPage | skyvern/webeye/browser_factory.py:947-958 | with a browser address the reused page is the first web page of the context; without one no page is reused |
| Session.CheckAndFixKeepsWorkingPage | skyvern/webeye/browser_factory.py:925-947 | with a working page, the state check changes nothing but the page lookup |
| Session.CheckAndFixCreateFails | skyvern/webeye/browser_factory.py:925-945 | when there is no context and creation fails, the creation error is raised and the state is unchanged |
| Session.CheckAndFixReady | skyvern/webeye/browser_factory.py:914-967 | once a context exists, the check leaves a working page unless page set-up itself failed |
| Session.ValidateBrowserContext | skyvern/webeye/browser_factory.py:1019-1041 | a page is accepted exactly when its content is readable and contains neither "Bad gateway error" nor "client_connect_forbidden_host" |
| Session.GetOrCreateReturnsWorkingPage | skyvern/webeye/browser_factory.py:1078-1138 | a page returned is the state's working page |
| Session.RecheckReturnsWorkingPage | skyvern/webeye/browser_factory.py:1121-1138 | after the content check, a page handed back is the working page, whether the rejected page was kept or replaced |
| Session.OnlyNetworkErrorsRetried | skyvern/webeye/browser_factory.py:1093-1107 | an error of the first set-up without "net::ERR" is raised unchanged |
| Session.NetworkErrorRetriedOnce | skyvern/webeye/browser_factory.py:1104-1120 | a "net::ERR" error leads to one close and one new set-up; when the close fails, the original error is raised |
| Session.RejectedPageKeptWhenCloseFails | skyvern/webeye/browser_factory.py:1121-1138 | a rejected page is closed and recreated once without a second check; when the close fails, the rejected page is returned |
| Session.CloseOrder | skyvern/webeye/browser_factory.py:1178-1208 | nothing happens with the flag off; otherwise the context is closed before the cleanup, the cleanup runs only with a context and a cleanup, and Playwright is stopped last |
| Session.BrowserState.constructor | skyvern/webeye/browser_factory.py:878-890 | the new state holds the given context, page, artifacts and cleanup |
| Session.BrowserState.SetWorkingPage | skyvern/webeye/browser_factory.py:1048-1076 | the new state is `Session.Select` of the old one |
| Session.BrowserState.GetWorkingPage | skyvern/webeye/browser_factory.py:1007-1017 | the result and new state are `Session.GetWorking` of the old state |
| Session.BrowserState.MustGetWorkingPage | skyvern/webeye/browser_factory.py:1043-1046 | returns the working page, or AssertionError when there is none |
| Session.BrowserState.AssertWorkingPage | skyvern/webeye/browser_factory.py:892-897 | result and new state are `Session.AssertPage` of the old state |
| Session.BrowserState.CloseAllOtherPages | skyvern/webeye/browser_factory.py:899-912 | the loop leaves the state `Session.CloseOthers` describes |
| Session.BrowserState.NavigateToUrl | skyvern/webeye/browser_factory.py:969-1005 | the retry loop's result and pauses are those of `Session.Navigate` |
| Session.BrowserState.CloseCurrentOpenPage | skyvern/webeye/browser_factory.py:1140-1151 | result and new state are `Session.CloseCurrent` of the old state |
| Session.BrowserState.CheckAndFixState | skyvern/webeye/browser_factory.py:914-967 | result and new state are `Session.CheckAndFix` of the old state |
| Session.BrowserState.GetOrCreatePage | skyvern/webeye/browser_factory.py:1078-1138 | result and new state are `Session.GetOrCreate` of the old state |
| Session.BrowserState.StopPageLoading | skyvern/webeye/browser_factory.py:1153-1159 | without a page the assertion error is raised; a failing stop raises FailedToStopLoadingPage with the page's URL and the error's repr |
| Session.BrowserState.ReloadPage | skyvern/webeye/browser_factory.py:1161-1176 | without a page the assertion error is raised; a failed reload raises FailedToReloadPage; a successful one waits 5 seconds |
| Session.BrowserState.Close | skyvern/webeye/browser_factory.py:1178-1208 | the effects of close are `Session.CloseSteps` of the state, and the state is not changed, so a second close repeats them |
| Ports.PortManager.constructor | skyvern/webeye/browser_factory_optimizations.py:21 | a new allocator holds no ports |
| Ports.PortManager.GetAvailablePort | skyvern/webeye/browser_factory_optimizations.py:25-36 | either a port in [9222, 9999) that was neither held nor in use is returned and exactly that port is added, as the first of at most 100 draws that was free; or every one of the 100 draws was busy, the error is raised and the set is unchanged |
| Ports.PortManager.ReleasePort | skyvern/webeye/browser_factory_optimizations.py:38-42 | only the given port is released, and releasing a port not held changes nothing |
| Processes.OptimizedFlags | skyvern/webeye/browser_factory_optimizations.py:72-89 | the 16 baseline flags start with the debugging-port flag |
| Processes.ChromeArgv | skyvern/webeye/browser_factory_optimizations.py:72-106 | the command line is the chrome path, the baseline flags, the caller's args in order and then --user-data-dir last |
| Processes.ChromeProcessManager.constructor | skyvern/webeye/browser_factory_optimizations.py:63-66 | the three tables start empty and in step |
| Processes.ChromeProcessManager.StartChrome | skyvern/webeye/browser_factory_optimizations.py:68-129 | on success the process, temp dir and monitor are recorded under the same port; on failure the port's records are dropped, the port is released and the error is re-raised; only a temp dir recorded earlier is removed, so one made just before a failed `Popen` is left on disk |
| Processes.ChromeProcessManager.CleanupResources | skyvern/webeye/browser_factory_optimizations.py:193-214 | the port's three records are dropped, the port is released and its temp dir is removed |
| Processes.ChromeProcessManager.StopChrome | skyvern/webeye/browser_factory_optimizations.py:150-191 | an untracked port gives true and changes nothing; otherwise a still-running process is terminated, and killed only after the wait times out; then the records are dropped and the port is released, unless the signal itself failed |
| Processes.StopStepsOrder | skyvern/webeye/browser_factory_optimizations.py:150-191 | only a running process is terminated; a kill always follows a terminate after a timed-out wait; the temp dir is removed last |
| Processes.ChromeProcessManager.CleanupAll | skyvern/webeye/browser_factory_optimizations.py:216-227 | every tracked process is stopped; only those whose stop failed stay recorded, and the ports of the others are released |
| Processes.CleanupStep | skyvern/webeye/browser_factory_optimizations.py:216-227 | one `stop_chrome` call keeps the progress of `cleanup_all`: the port is handled, it stays tracked only if its stop failed, and a stopped port is released |
| Connections.ConnectOutcome | skyvern/webeye/browser_factory_optimizations.py:254-284 | with 0 retries the "已重试0次" error is raised without an attempt; otherwise connecting succeeds exactly when some attempt does, the last attempt's error is re-raised, and the pauses between attempts are 1, 2, 4, … seconds |
| Connections.Backoff | skyvern/webeye/browser_factory_optimizations.py:274 | the pause before attempt i+1 is 2**i seconds |
| Connections.CDPConnectionManager.constructor | skyvern/webeye/browser_factory_optimizations.py:234-237 | the pool and the timestamps start empty |
| Connections.CDPConnectionManager.ConnectWithRetry | skyvern/webeye/browser_factory_optimizations.py:239-284 | a connection younger than 300 seconds is returned without an attempt; otherwise an expired one is closed, the retries run as in `Connections.ConnectFrom`, and a new connection is cached with the current time |
| Connections.CDPConnectionManager.Attempts | skyvern/webeye/browser_factory_optimizations.py:254-284 | the retry loop's result and pauses are those of `Connections.ConnectFrom` |
| Connections.CDPConnectionManager.Disconnect | skyvern/webeye/browser_factory_optimizations.py:286-296 | the URL leaves both the pool and the timestamps even if closing fails, so their keys stay equal |
| Connections.CDPConnectionManager.DisconnectAll | skyvern/webeye/browser_factory_optimizations.py:298-309 | afterwards both maps are empty; every cached browser was closed, and only cached browsers were |
| Optimized.CreateOptimizedLocalCustom | skyvern/webeye/browser_factory_optimizations.py:317-380 | the config checks raise ValueError or FileNotFoundError before a port is taken; without a port nothing changes; on success the port stays held, the process is recorded, the console log and the download listener are installed, the artifacts are the defaults with the console log path when its file was created, and the cleanup stops that Chrome; on failure nothing is installed and Chrome is stopped, which releases the port and drops its records |
| Optimized.LaunchOnPort | skyvern/webeye/browser_factory_optimizations.py:337-380 | on a reserved port: on success the port stays held, the process is recorded, the console log and then the download listener are installed, the artifacts carry the console log path as `set_browser_console_log` leaves them, and the cleanup stops that Chrome; the temp-dir, launch or start-up timeout error is the one raised; on failure Chrome is stopped, which releases the port and drops its records unless a signal raised |
| Optimized.StartTracked | skyvern/webeye/browser_factory_optimizations.py:339-343 | `start_chrome` on a reserved port records the process on success and releases the port on failure |
| Optimized.StopAndRelease | skyvern/webeye/browser_factory_optimizations.py:379 | unless a signal raised, stopping Chrome drops the process record and releases the port |
| Optimized.ConnectAndOpen | skyvern/webeye/browser_factory_optimizations.py:353-358 | no error is reported only when the new context was opened |
| Optimized.SignatureNeedsProxyLocation | skyvern/webeye/browser_factory_optimizations.py:317-322 | as written, defining the creator raises NameError for `ProxyLocation` |
| Optimized.ImportsCompleteTheSignature | skyvern/webeye/browser_factory_optimizations.py:317-322 | with the missing imports added, the creator is defined |

## Left out

- Playwright, aiohttp, subprocess, psutil, socket and filesystem calls are
  left out. Their results are inputs: each call gives one value, or a
  function from attempt number to result for a retry loop.
- The readiness pollers `_wait_for_chrome_ready` and
  `_wait_for_chrome_ready_optimized` are not modelled. Their verdict is an
  input. Besides, `aiohttp` is not imported in browser_factory.py, so the
  first poller could never succeed as written.
- asyncio locks, `create_task`, `gather` and the process monitor loop are
  left out. Each lock-protected block is one atomic step, and a fan-out is
  a loop in a fixed order.
- `random.choice` and `random.randint` are inputs. So are the wall clock
  and the date in file names.
- Screenshots (`take_fullpage_screenshot`, `take_post_action_screenshot`)
  are not modelled.
- The headless, headful and CDP-connect creators are not modelled.
- Chrome preference templating and the user-data-dir copy logic are not
  modelled.
- `NAVIGATION_MAX_RETRY_TIME` and `BROWSER_CLOSE_TIMEOUT` are parameters,
  because skyvern/constants.py is not part of this model. `settings` values
  such as `BROWSER_TYPE` and `HOSTED_PROXY_POOL` are inputs.
- The skyvern exception classes are not part of this model. Their messages
  are assumed to contain their arguments.
- Session.CloseCurrentOutcome: a timeout while closing the context is
  folded into "the close failed".
- Session.BrowserState.Close: a context close that took longer than
  `BROWSER_CLOSE_TIMEOUT` is one boolean input.
- Artifacts.RecordVideo: treats each video entry as its own value. As
  written, the padding entries share one object (see Findings). The class
  default `BrowserArtifacts()` is also shared between states; the model
  gives each state its own copy.
- Session.NavigateOutcome: the page's URL after `goto` is not tracked.
- Session.BrowserState.StopPageLoading: escaping inside `repr` is not
  modelled; the text is quoted as is.
- PyStr.ParseInt: accepts ASCII digits only. CPython's `int()` also accepts
  other Unicode decimal digits.
- Urls.UrlSplit: covers only scheme, netloc and the bracket check of
  `urlsplit`. Bracketed IPv6 hosts are not validated further.
- Proxy.IsValidProxyUrl: the port is checked with ASCII digits only. The
  pattern's `\d` also accepts other Unicode decimal digits.
- BrowserArgs.JoinPath: joins with "/" and does not normalise the path as
  `pathlib` does (repeated or trailing separators, "." parts).
- Creators.CreateLocalCustom: builds the default artifacts where line 795
  as written raises TypeError (see Findings). It also assumes `tempfile`
  is imported (line 738).
- Creators.CreateLocalCustom: the chrome path goes into the
  FileNotFoundError text and argv[0] as given. `str(Path(chrome_path))`
  would normalise it first. The same holds for
  Optimized.CreateOptimizedLocalCustom.
- Session.GetOrCreateReturnsWorkingPage: `context.new_page()` is assumed
  never to raise.
- Listeners.DownloadListenersRenameOnce: the listeners installed on one context
  run one after the other, not concurrently.
- Creators.CreateAdsPower: the `check_status` call is an input, and the
  intended artifacts are the defaults given to `build_browser_artifacts`.
- Optimized.CreateOptimizedLocalCustom: uses default artifacts where the
  code as written fails at `BrowserContextFactory.build_browser_artifacts(**kwargs)`
  (browser_factory_optimizations.py:361). `BrowserContextFactory` is not
  imported in that file (lines 2-12), so the call raises NameError. With
  the imports `Optimized.ImportsCompleteTheSignature` adds, it raises
  TypeError for `browser_config`, as in the two creators.
- Optimized.CreateOptimizedLocalCustom: a cached CDP connection is not
  dropped when creation fails.
- Connections.CDPConnectionManager.ConnectWithRetry: the clock is one
  integer value per call. The 30 s per-attempt timeout is part of the
  attempt's outcome.
- The registry keys "chromium-headless" through "local-custom"
  (browser_factory.py:613-617) differ from the `BrowserType` strings.
  `Factory.RegistryNames` states this rather than changing it.

## Findings

| source | as written | input that shows it | evidently intended | confidence | as-written member | corrected member |
|---|---|---|---|---|---|---|
| skyvern/webeye/browser_factory.py:616-617 | the AdsPower and local-custom creators are registered before their `def` at lines 620 and 704 | importing the module | define the creators, then register them | not executed | Factory.RegistrationBeforeDefinition | Factory.DefinitionsFirstRegistersAll |
| skyvern/webeye/adspower_service.py:58 | `AdsPowerBrowserInfo` is used but not imported at line 11 | status 200 and a list reply with code 0 and one profile | one `AdsPowerBrowserInfo` per profile and available=True | not executed | AdsPower.MissingImportHidesProfiles | AdsPower.StatusAvailability |
| skyvern/webeye/browser_factory.py:1065-1067 | the padding is `[VideoArtifact()] * n`, one shared object, so setting the path at index sets it on every padded entry | an empty video list and index 2 | only entry `index` gets the path | not executed | Artifacts.PaddingSharesOneObject | Artifacts.RecordVideoKeepsPaths |
| skyvern/webeye/browser_factory.py:738 | `tempfile` is not imported in browser_factory.py | any config with an existing chrome path | create the temp dir and launch Chrome | not executed | Creators.LocalCustomNeverStarts | Creators.LocalCleanupOrder |
| skyvern/webeye/browser_factory.py:676 | `build_browser_artifacts(**kwargs)` gets the creator's `browser_config` keyword, which it does not accept | kwargs holding only `browser_config`, a started profile and one existing context | build the default artifacts | not executed | Creators.AdsPowerArtifactsCallFails | Creators.AdsPowerCleanupOrder |
| skyvern/webeye/browser_factory.py:795 | the local creator makes the same `build_browser_artifacts(**kwargs)` call with `browser_config` in `kwargs`, so even with `tempfile` imported it raises TypeError after Chrome is up, and its `except` block stops Chrome and removes the temp dir | a valid config, an existing path, a ready Chrome, a connection and a new context | build the default artifacts and return the context | not executed | Creators.LocalArtifactsCallFails | Creators.CreateLocalCustom |
| skyvern/webeye/browser_factory_optimizations.py:317-322 | the signature names `ProxyLocation`, `BrowserArtifacts` and `BrowserCleanupFunc`, none of which is imported, and annotations are evaluated when the `def` runs | importing the module | import the names the signature uses | not executed | Optimized.SignatureNeedsProxyLocation | Optimized.ImportsCompleteTheSignature |
