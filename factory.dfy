/** `BrowserContextFactory`: the registry of context creators and
    `create_browser_context` (skyvern/webeye/browser_factory.py:149-289),
    and the module-level registrations (browser_factory.py:613-617). */
module Factory {
  import opened Wrappers
  import opened Errors
  import opened Artifacts

  /** The creator functions the module defines. */
  datatype Creator =
    | CreateHeadlessChromium
    | CreateHeadfulChromium
    | CreateCdpConnectionBrowser
    | CreateAdsPowerBrowser
    | CreateLocalCustomBrowser

  /** The cleanup callback a creator hands back. */
  datatype CleanupFunc =
    | StopAdsPowerProfile(userId: string)
    | StopLocalChrome(cdpPort: nat, tempDir: string)
    | StopManagedChrome(managedPort: int)   // `chrome_manager.stop_chrome(port)`

  /** A browser context handle. */
  type ContextId = nat

  datatype Created = Created(context: ContextId, artifacts: BrowserArtifacts, cleanup: Option<CleanupFunc>)

  /** What running the chosen creator produced. */
  datatype CreatorOutcome = CreatorReturned(created: Created) | CreatorRaised(error: Exc)

  /** The class-level `_creators` dictionary. */
  class BrowserContextFactory {
    var creators: map<string, Creator>

    constructor()
      ensures creators == map[]
    {
      creators := map[];
    }

    /** `register_type(browser_type, creator)`: a later registration of the
        same name replaces the earlier one. */
    method RegisterType(browserType: string, creator: Creator)
      modifies this
      ensures creators == old(creators)[browserType := creator]
    {
      creators := creators[browserType := creator];
    }

    /** The five registrations at module load, in source order. */
    method RegisterBuiltins()
      modifies this
      ensures creators == old(creators) + BuiltinCreators()
    {
      var before := creators;
      RegisterType("chromium-headless", CreateHeadlessChromium);
      RegisterType("chromium-headful", CreateHeadfulChromium);
      RegisterType("cdp-connect", CreateCdpConnectionBrowser);
      RegisterType("adspower", CreateAdsPowerBrowser);
      RegisterType("local-custom", CreateLocalCustomBrowser);
      UpdatesAreUnion(before);
    }

    /** `create_browser_context()` for `settings.BROWSER_TYPE == browserType`. */
    function CreateBrowserContext(browserType: string, outcome: CreatorOutcome,
                                  setupError: Option<Exc>, closeError: Option<Exc>, log: NewLog): (r: CreateResult)
      reads this
      ensures browserType !in creators ==> r.result == Err(UnknownBrowserType(browserType)) && !r.closedContext
      ensures r.result.Ok? <==> browserType in creators && outcome.CreatorReturned? && setupError.None?
      ensures r.result.Ok? ==>
        && r.result.value.context == outcome.created.context && r.result.value.cleanup == outcome.created.cleanup
        && r.result.value.artifacts == WithConsoleLog(outcome.created.artifacts, log)
    {
      CreateWith(creators, browserType, outcome, setupError, closeError, log)
    }
  }

  /** Updating a union updates its right operand. */
  lemma UpdateUnion(m: map<string, Creator>, x: map<string, Creator>, k: string, v: Creator)
    ensures (m + x)[k := v] == m + x[k := v]
  {
  }

  lemma UpdatesAreUnion(m: map<string, Creator>)
    ensures m["chromium-headless" := CreateHeadlessChromium]["chromium-headful" := CreateHeadfulChromium]
             ["cdp-connect" := CreateCdpConnectionBrowser]["adspower" := CreateAdsPowerBrowser]
             ["local-custom" := CreateLocalCustomBrowser] == m + BuiltinCreators()
  {
    var e: map<string, Creator> := map[];
    assert m == m + e;
    var b1 := e["chromium-headless" := CreateHeadlessChromium];
    UpdateUnion(m, e, "chromium-headless", CreateHeadlessChromium);
    var b2 := b1["chromium-headful" := CreateHeadfulChromium];
    UpdateUnion(m, b1, "chromium-headful", CreateHeadfulChromium);
    var b3 := b2["cdp-connect" := CreateCdpConnectionBrowser];
    UpdateUnion(m, b2, "cdp-connect", CreateCdpConnectionBrowser);
    var b4 := b3["adspower" := CreateAdsPowerBrowser];
    UpdateUnion(m, b3, "adspower", CreateAdsPowerBrowser);
    var b5 := b4["local-custom" := CreateLocalCustomBrowser];
    UpdateUnion(m, b4, "local-custom", CreateLocalCustomBrowser);
    assert b5 == BuiltinCreators();
  }

  /** The registrations of browser_factory.py:613-617. */
  function BuiltinCreators(): (m: map<string, Creator>)
    ensures |m.Keys| == 5
  {
    var m := map["chromium-headless" := CreateHeadlessChromium, "chromium-headful" := CreateHeadfulChromium,
                 "cdp-connect" := CreateCdpConnectionBrowser, "adspower" := CreateAdsPowerBrowser,
                 "local-custom" := CreateLocalCustomBrowser];
    assert m.Keys == {"chromium-headless", "chromium-headful", "cdp-connect", "adspower", "local-custom"};
    m
  }

  /** The result of `create_browser_context`, and whether it closed the
      context a creator had returned. */
  datatype CreateResult = CreateResult(result: Result<Created, Exc>, closedContext: bool)

  /** The body of `create_browser_context`. `outcome` is what the creator
      registered under `browserType` produced, `setupError` what installing
      the listeners and the time zone raised, `closeError` what closing the
      context on failure raised, and `log` the fresh console log file
      `set_browser_console_log` tried to create. That call sets the log
      path on the creator's artifacts in place, so the artifacts returned
      carry it. */
  function CreateWith(creators: map<string, Creator>, browserType: string, outcome: CreatorOutcome,
                      setupError: Option<Exc>, closeError: Option<Exc>, log: NewLog): (r: CreateResult)
    ensures browserType !in creators ==> r == CreateResult(Err(UnknownBrowserType(browserType)), false)
    ensures r.result.Ok? <==> browserType in creators && outcome.CreatorReturned? && setupError.None?
    ensures r.result.Ok? ==>
      && r.result.value.context == outcome.created.context && r.result.value.cleanup == outcome.created.cleanup
      && r.result.value.artifacts == WithConsoleLog(outcome.created.artifacts, log)
    ensures r.closedContext <==> browserType in creators && outcome.CreatorReturned? && setupError.Some?
  {
    if browserType !in creators then CreateResult(Err(UnknownBrowserType(browserType)), false)
    else
      match outcome
      case CreatorRaised(e) =>
        CreateResult(Err(if e.UnknownBrowserType? then e else UnknownErrorWhileCreatingBrowserContext(browserType, e)), false)
      case CreatorReturned(c) =>
        match setupError
        case None => CreateResult(Ok(c.(artifacts := WithConsoleLog(c.artifacts, log))), false)
        case Some(e) =>
          if closeError.Some? then CreateResult(Err(closeError.value), true)
          else CreateResult(Err(if e.UnknownBrowserType? then e else UnknownErrorWhileCreatingBrowserContext(browserType, e)), true)
  }

  /** Every failure except an unknown type and a failing close is reported
      as `UnknownErrorWhileCreatingBrowserContext` around the original
      error; an unknown type is reported unwrapped. */
  lemma CreateErrors(creators: map<string, Creator>, browserType: string, outcome: CreatorOutcome,
                     setupError: Option<Exc>, closeError: Option<Exc>, log: NewLog)
    ensures var r := CreateWith(creators, browserType, outcome, setupError, closeError, log);
      && (browserType in creators && outcome.CreatorRaised? && !outcome.error.UnknownBrowserType? ==>
            r.result == Err(UnknownErrorWhileCreatingBrowserContext(browserType, outcome.error)))
      && (browserType in creators && outcome.CreatorRaised? && outcome.error.UnknownBrowserType? ==>
            r.result == Err(outcome.error))
      && (r.closedContext && closeError.Some? ==> r.result == Err(closeError.value))
      && (r.closedContext && closeError.None? && !setupError.value.UnknownBrowserType? ==>
            r.result == Err(UnknownErrorWhileCreatingBrowserContext(browserType, setupError.value)))
  {
  }

  /** A network failure inside a creator is still recognisable as one after
      the factory wraps it, so the session can retry. */
  lemma CreateKeepsNetworkErrors(creators: map<string, Creator>, browserType: string, e: Exc,
                                 closeError: Option<Exc>, log: NewLog)
    requires browserType in creators && IsNetworkError(e)
    ensures var r := CreateWith(creators, browserType, CreatorRaised(e), None, closeError, log);
      r.result.Err? && IsNetworkError(r.result.error)
  {
    NetworkErrorSurvivesWrapping(browserType, "", e);
  }

  /** After the built-in registrations exactly the five names are known.
      The `BrowserType` values "skyvern_default" and "local_custom" are not
      among them: only "adspower" is spelled the same in both. */
  lemma RegistryNames()
    ensures BuiltinCreators().Keys == {"chromium-headless", "chromium-headful", "cdp-connect", "adspower", "local-custom"}
    ensures "skyvern_default" !in BuiltinCreators() && "local_custom" !in BuiltinCreators()
    ensures BuiltinCreators()["adspower"] == CreateAdsPowerBrowser
  {
  }

  // ---------------------------------------------------------------------
  // Module loading: names must be defined before they are registered

  /** The module-level statements that matter here. */
  datatype TopLevel = Define(creator: Creator) | Register(key: string, creator: Creator)

  datatype Loaded = Loaded(defined: set<Creator>, registered: map<string, Creator>)

  function CreatorName(c: Creator): string {
    match c
    case CreateHeadlessChromium => "_create_headless_chromium"
    case CreateHeadfulChromium => "_create_headful_chromium"
    case CreateCdpConnectionBrowser => "_create_cdp_connection_browser"
    case CreateAdsPowerBrowser => "_create_adspower_browser"
    case CreateLocalCustomBrowser => "_create_local_custom_browser"
  }

  /** Executing the statements top to bottom; using a name before its
      definition raises NameError and stops the import. */
  function LoadModule(stmts: seq<TopLevel>, st: Loaded): (r: Result<Loaded, Exc>)
    ensures r.Ok? ==> st.defined <= r.value.defined && st.registered.Keys <= r.value.registered.Keys
    decreases |stmts|
  {
    if stmts == [] then Ok(st)
    else
      match stmts[0]
      case Define(c) => LoadModule(stmts[1..], st.(defined := st.defined + {c}))
      case Register(k, c) =>
        if c !in st.defined then Err(NameError(CreatorName(c)))
        else LoadModule(stmts[1..], st.(registered := st.registered[k := c]))
  }

  lemma LoadStep(stmt: TopLevel, rest: seq<TopLevel>, st: Loaded)
    ensures LoadModule([stmt] + rest, st) ==
      match stmt
      case Define(c) => LoadModule(rest, st.(defined := st.defined + {c}))
      case Register(k, c) =>
        if c !in st.defined then Err(NameError(CreatorName(c)))
        else LoadModule(rest, st.(registered := st.registered[k := c]))
  {
    assert ([stmt] + rest)[0] == stmt && ([stmt] + rest)[1..] == rest;
  }

  function Registrations(): seq<TopLevel> {
    [Register("chromium-headless", CreateHeadlessChromium),
     Register("chromium-headful", CreateHeadfulChromium),
     Register("cdp-connect", CreateCdpConnectionBrowser),
     Register("adspower", CreateAdsPowerBrowser),
     Register("local-custom", CreateLocalCustomBrowser)]
  }

  /** browser_factory.py as written: the AdsPower and local Chrome creators
      are defined after the registrations. */
  function ModuleAsWritten(): seq<TopLevel> {
    [Define(CreateHeadlessChromium), Define(CreateHeadfulChromium), Define(CreateCdpConnectionBrowser)]
    + Registrations()
    + [Define(CreateAdsPowerBrowser), Define(CreateLocalCustomBrowser)]
  }

  /** The evident intent: every creator defined before it is registered. */
  function ModuleDefinitionsFirst(): seq<TopLevel> {
    [Define(CreateHeadlessChromium), Define(CreateHeadfulChromium), Define(CreateCdpConnectionBrowser),
     Define(CreateAdsPowerBrowser), Define(CreateLocalCustomBrowser)]
    + Registrations()
  }

  lemma RegisterThree(st: Loaded, rest: seq<TopLevel>)
    requires {CreateHeadlessChromium, CreateHeadfulChromium, CreateCdpConnectionBrowser} <= st.defined
    ensures LoadModule(Registrations()[..3] + rest, st)
         == LoadModule(rest, st.(registered := st.registered["chromium-headless" := CreateHeadlessChromium]
                                 ["chromium-headful" := CreateHeadfulChromium]["cdp-connect" := CreateCdpConnectionBrowser]))
  {
    var r := Registrations();
    var s1 := st.(registered := st.registered["chromium-headless" := CreateHeadlessChromium]);
    var s2 := s1.(registered := s1.registered["chromium-headful" := CreateHeadfulChromium]);
    assert r[..3] + rest == [r[0]] + ([r[1]] + ([r[2]] + rest));
    LoadStep(r[0], [r[1]] + ([r[2]] + rest), st);
    LoadStep(r[1], [r[2]] + rest, s1);
    LoadStep(r[2], rest, s2);
  }

  lemma DefineThree(st: Loaded, rest: seq<TopLevel>)
    ensures LoadModule([Define(CreateHeadlessChromium), Define(CreateHeadfulChromium), Define(CreateCdpConnectionBrowser)] + rest, st)
         == LoadModule(rest, st.(defined := st.defined + {CreateHeadlessChromium, CreateHeadfulChromium, CreateCdpConnectionBrowser}))
  {
    var s1 := st.(defined := st.defined + {CreateHeadlessChromium});
    var s2 := s1.(defined := s1.defined + {CreateHeadfulChromium});
    var s3 := s2.(defined := s2.defined + {CreateCdpConnectionBrowser});
    assert [Define(CreateHeadlessChromium), Define(CreateHeadfulChromium), Define(CreateCdpConnectionBrowser)] + rest
        == [Define(CreateHeadlessChromium)] + ([Define(CreateHeadfulChromium)] + ([Define(CreateCdpConnectionBrowser)] + rest));
    LoadStep(Define(CreateHeadlessChromium), [Define(CreateHeadfulChromium)] + ([Define(CreateCdpConnectionBrowser)] + rest), st);
    LoadStep(Define(CreateHeadfulChromium), [Define(CreateCdpConnectionBrowser)] + rest, s1);
    LoadStep(Define(CreateCdpConnectionBrowser), rest, s2);
    assert s3.defined == st.defined + {CreateHeadlessChromium, CreateHeadfulChromium, CreateCdpConnectionBrowser};
  }

  /** Importing the module as written fails at the fourth registration. */
  lemma RegistrationBeforeDefinition()
    ensures LoadModule(ModuleAsWritten(), Loaded({}, map[])) == Err(NameError("_create_adspower_browser"))
  {
    var tail := [Define(CreateAdsPowerBrowser), Define(CreateLocalCustomBrowser)];
    var r := Registrations();
    assert ModuleAsWritten() == [Define(CreateHeadlessChromium), Define(CreateHeadfulChromium), Define(CreateCdpConnectionBrowser)] + (r + tail);
    DefineThree(Loaded({}, map[]), r + tail);
    var st := Loaded({CreateHeadlessChromium, CreateHeadfulChromium, CreateCdpConnectionBrowser}, map[]);
    assert {} + {CreateHeadlessChromium, CreateHeadfulChromium, CreateCdpConnectionBrowser}
        == {CreateHeadlessChromium, CreateHeadfulChromium, CreateCdpConnectionBrowser};
    assert r + tail == r[..3] + ([r[3]] + (r[4..] + tail));
    RegisterThree(st, [r[3]] + (r[4..] + tail));
    var st3 := st.(registered := st.registered["chromium-headless" := CreateHeadlessChromium]
                    ["chromium-headful" := CreateHeadfulChromium]["cdp-connect" := CreateCdpConnectionBrowser]);
    assert r[3] == Register("adspower", CreateAdsPowerBrowser);
    AdsPowerRegistrationFails(st3, r[4..] + tail);
  }

  lemma AdsPowerRegistrationFails(st: Loaded, rest: seq<TopLevel>)
    requires CreateAdsPowerBrowser !in st.defined
    ensures LoadModule([Register("adspower", CreateAdsPowerBrowser)] + rest, st)
         == Err(NameError("_create_adspower_browser"))
  {
    LoadStep(Register("adspower", CreateAdsPowerBrowser), rest, st);
  }

  /** Once all five creators are defined, the registrations add exactly
      the built-in table. */
  lemma RegisterAll(st: Loaded)
    requires {CreateHeadlessChromium, CreateHeadfulChromium, CreateCdpConnectionBrowser,
              CreateAdsPowerBrowser, CreateLocalCustomBrowser} <= st.defined
    ensures LoadModule(Registrations(), st) == Ok(st.(registered := st.registered + BuiltinCreators()))
  {
    var r := Registrations();
    assert r == r[..3] + ([r[3]] + ([r[4]] + []));
    RegisterThree(st, [r[3]] + ([r[4]] + []));
    var t3 := st.(registered := st.registered["chromium-headless" := CreateHeadlessChromium]
                    ["chromium-headful" := CreateHeadfulChromium]["cdp-connect" := CreateCdpConnectionBrowser]);
    var t4 := t3.(registered := t3.registered["adspower" := CreateAdsPowerBrowser]);
    LoadStep(r[3], [r[4]] + [], t3);
    LoadStep(r[4], [], t4);
    UpdatesAreUnion(st.registered);
  }

  lemma DefineTwo(st: Loaded, rest: seq<TopLevel>)
    ensures LoadModule([Define(CreateAdsPowerBrowser), Define(CreateLocalCustomBrowser)] + rest, st)
         == LoadModule(rest, st.(defined := st.defined + {CreateAdsPowerBrowser, CreateLocalCustomBrowser}))
  {
    var s1 := st.(defined := st.defined + {CreateAdsPowerBrowser});
    assert [Define(CreateAdsPowerBrowser), Define(CreateLocalCustomBrowser)] + rest
        == [Define(CreateAdsPowerBrowser)] + ([Define(CreateLocalCustomBrowser)] + rest);
    LoadStep(Define(CreateAdsPowerBrowser), [Define(CreateLocalCustomBrowser)] + rest, st);
    LoadStep(Define(CreateLocalCustomBrowser), rest, s1);
    assert s1.defined + {CreateLocalCustomBrowser} == st.defined + {CreateAdsPowerBrowser, CreateLocalCustomBrowser};
  }

  /** With the definitions first, the import registers exactly the five
      built-in creators. */
  lemma DefinitionsFirstRegistersAll()
    ensures LoadModule(ModuleDefinitionsFirst(), Loaded({}, map[])).Ok?
    ensures LoadModule(ModuleDefinitionsFirst(), Loaded({}, map[])).value.registered == BuiltinCreators()
  {
    var all := Loaded({CreateHeadlessChromium, CreateHeadfulChromium, CreateCdpConnectionBrowser,
                       CreateAdsPowerBrowser, CreateLocalCustomBrowser}, map[]);
    DefineAllFive();
    RegisterAll(all);
    EmptyUnion(BuiltinCreators());
  }

  lemma EmptyUnion(m: map<string, Creator>)
    ensures map[] + m == m
  {
  }

  /** The five definitions of the corrected module, run from an empty
      namespace, define every creator and register none. */
  lemma DefineAllFive()
    ensures LoadModule(ModuleDefinitionsFirst(), Loaded({}, map[]))
         == LoadModule(Registrations(), Loaded({CreateHeadlessChromium, CreateHeadfulChromium, CreateCdpConnectionBrowser,
                                                CreateAdsPowerBrowser, CreateLocalCustomBrowser}, map[]))
  {
    var r := Registrations();
    var two := [Define(CreateAdsPowerBrowser), Define(CreateLocalCustomBrowser)];
    var st0 := Loaded({}, map[]);
    var st := Loaded({CreateHeadlessChromium, CreateHeadfulChromium, CreateCdpConnectionBrowser}, map[]);
    var all := Loaded({CreateHeadlessChromium, CreateHeadfulChromium, CreateCdpConnectionBrowser,
                       CreateAdsPowerBrowser, CreateLocalCustomBrowser}, map[]);
    assert ModuleDefinitionsFirst()
        == [Define(CreateHeadlessChromium), Define(CreateHeadfulChromium), Define(CreateCdpConnectionBrowser)] + (two + r);
    DefineThree(st0, two + r);
    assert st0.(defined := st0.defined + {CreateHeadlessChromium, CreateHeadfulChromium, CreateCdpConnectionBrowser}) == st;
    DefineTwo(st, r);
    assert st.(defined := st.defined + {CreateAdsPowerBrowser, CreateLocalCustomBrowser}) == all;
  }
}
