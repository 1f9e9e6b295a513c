/** `BrowserState` (skyvern/webeye/browser_factory.py:875-1208): the
    browser context of one task, its working page and its artifacts.

    Every operation is stated twice: as a function on a `State` value,
    about which the lemmas speak, and as a method of the `BrowserState`
    class that changes the fields in place and is proved to end in the
    state that function gives. What the browser answers (the pages it has,
    whether a page closes, what loading an address raises) is passed in. */
module Session {
  import opened Wrappers
  import opened PyStr
  import opened Errors
  import opened Urls
  import opened Artifacts
  import opened Factory

  /** The identity of a Playwright page; pages are compared by identity. */
  type PageId = nat

  /** A page: its identity, its address, and what asking for its video
      recording answers. */
  datatype Page = Page(id: PageId, url: string, video: VideoLookup)

  /** A browser context and its open pages, oldest first. */
  datatype Context = Context(id: ContextId, pages: seq<Page>)

  /** The fields of a `BrowserState`: `__page`, `browser_context`,
      `browser_artifacts` and `browser_cleanup`. */
  datatype State = State(page: Option<Page>, context: Option<Context>,
                         artifacts: BrowserArtifacts, cleanup: Option<CleanupFunc>)

  /** The result an operation raises or returns, with the state it leaves. */
  datatype Done<T> = Done(result: Result<T, Exc>, state: State)

  function PagesOf(s: State): seq<Page> {
    if s.context.Some? then s.context.value.pages else []
  }

  function Last(pages: seq<Page>): Page
    requires pages != []
  {
    pages[|pages| - 1]
  }

  /** The page `get_working_page` hands back: the newest page of the
      context, provided a working page was chosen at all. */
  function WorkingOf(s: State): Option<Page> {
    if s.page.None? || PagesOf(s) == [] then None else Some(Last(PagesOf(s)))
  }

  // ---------------------------------------------------------------------
  // Working page

  /** `set_working_page(page, index)`: the page becomes the working page
      and its video path is recorded at `index`. */
  function Select(s: State, p: Option<Page>, index: nat): State {
    if p.None? then s.(page := None)
    else s.(page := p, artifacts := s.artifacts.(videoArtifacts := RecordVideo(s.artifacts.videoArtifacts, index, p.value.video)))
  }

  /** `get_working_page`: when the newest page is not the working page it
      becomes the working page, recorded at its position. */
  function GetWorking(s: State): (Option<Page>, State) {
    var w := WorkingOf(s);
    if w.None? || s.page.value.id == w.value.id then (w, s)
    else (w, Select(s, w, |PagesOf(s)| - 1))
  }

  /** Asking for the working page hands back the newest page, keeps the
      context and the cleanup, and asking a second time changes nothing. */
  lemma GetWorkingIsStable(s: State)
    ensures GetWorking(s).0 == WorkingOf(s)
    ensures WorkingOf(s).Some? ==> WorkingOf(s).value in PagesOf(s)
    ensures var s1 := GetWorking(s).1;
      && s1.context == s.context && s1.cleanup == s.cleanup
      && WorkingOf(s1) == WorkingOf(s)
      && GetWorking(s1) == (WorkingOf(s), s1)
  {
  }

  /** The working page's video path is kept once known; every other
      recorded path is kept as well. */
  lemma GetWorkingKeepsVideoPaths(s: State, i: nat)
    requires i < |s.artifacts.videoArtifacts| && s.artifacts.videoArtifacts[i].videoPath.Some?
    ensures var v := GetWorking(s).1.artifacts.videoArtifacts;
      i < |v| && v[i] == s.artifacts.videoArtifacts[i]
  {
    var w := WorkingOf(s);
    if w.Some? && s.page.value.id != w.value.id {
      RecordVideoKeepsPaths(s.artifacts.videoArtifacts, |PagesOf(s)| - 1, w.value.video, i);
    }
  }

  /** `__assert_page`: the working page, or `MissingBrowserStatePage`. */
  function AssertPage(s: State): Done<Page> {
    var (w, s1) := GetWorking(s);
    if w.None? then Done(Err(MissingBrowserStatePage), s1) else Done(Ok(w.value), s1)
  }

  lemma AssertPageIsWorking(s: State)
    ensures AssertPage(s).result.Ok? <==> WorkingOf(s).Some?
    ensures AssertPage(s).result.Err? ==> AssertPage(s).result.error == MissingBrowserStatePage
    ensures AssertPage(s).result.Ok? ==> Some(AssertPage(s).result.value) == WorkingOf(AssertPage(s).state)
    ensures WorkingOf(AssertPage(s).state) == WorkingOf(s)
    ensures AssertPage(s).state.context == s.context
  {
    GetWorkingIsStable(s);
  }

  // ---------------------------------------------------------------------
  // Closing pages

  /** The pages left after closing every page but `cur`: the page whose
      close failed or timed out (`fails`) stays open. */
  function Survivors(pages: seq<Page>, cur: PageId, fails: set<PageId>): (r: seq<Page>)
    ensures |r| <= |pages|
    ensures forall p :: p in r ==> p in pages && (p.id == cur || p.id in fails)
  {
    if pages == [] then []
    else
      var last := Last(pages);
      Survivors(pages[..|pages| - 1], cur, fails) + (if last.id == cur || last.id in fails then [last] else [])
  }

  /** No page that should stay open is closed, and the order is kept. */
  lemma {:induction false} SurvivorsKeep(pages: seq<Page>, cur: PageId, fails: set<PageId>, p: Page)
    requires p in pages && (p.id == cur || p.id in fails)
    ensures p in Survivors(pages, cur, fails)
  {
    var init := pages[..|pages| - 1];
    if p != Last(pages) {
      assert pages == init + [Last(pages)];
      assert p in init;
      SurvivorsKeep(init, cur, fails, p);
    }
  }

  predicate DistinctIds(pages: seq<Page>) {
    forall i, j :: 0 <= i < j < |pages| ==> pages[i].id != pages[j].id
  }

  /** When every close succeeds only the working page is left. */
  lemma {:induction false} OnlyWorkingPageLeft(pages: seq<Page>)
    requires pages != [] && DistinctIds(pages)
    ensures Survivors(pages, Last(pages).id, {}) == [Last(pages)]
  {
    var init := pages[..|pages| - 1];
    NoneOfOthersLeft(init, Last(pages).id);
  }

  lemma {:induction false} NoneOfOthersLeft(pages: seq<Page>, cur: PageId)
    requires forall i :: 0 <= i < |pages| ==> pages[i].id != cur
    ensures Survivors(pages, cur, {}) == []
  {
    if pages != [] {
      NoneOfOthersLeft(pages[..|pages| - 1], cur);
    }
  }

  /** `_close_all_other_pages`. */
  function CloseOthers(s: State, fails: set<PageId>): State {
    var (cur, s1) := GetWorking(s);
    if s1.context.None? || cur.None? then s1
    else s1.(context := Some(s1.context.value.(pages := Survivors(s1.context.value.pages, cur.value.id, fails))))
  }

  /** Closing the other pages keeps the context, the cleanup and the
      working page, which stays the newest page. */
  lemma CloseOthersKeepsWorking(s: State, fails: set<PageId>)
    ensures var s1 := CloseOthers(s, fails);
      && WorkingOf(s1) == WorkingOf(s)
      && (s1.context.Some? <==> s.context.Some?)
      && (s1.context.Some? ==> s1.context.value.id == s.context.value.id)
      && s1.cleanup == s.cleanup
  {
    GetWorkingIsStable(s);
  }

  /** The browser's answers while `close_current_open_page` runs: which
      other pages fail to close, and whether closing the context succeeds
      within `BROWSER_CLOSE_TIMEOUT`. */
  datatype CloseInputs = CloseInputs(fails: set<PageId>, contextCloses: bool)

  /** `close_current_open_page`: True once the context is closed and
      forgotten; False, with the other pages already closed, when closing
      the context failed. */
  function CloseCurrent(s: State, c: CloseInputs): (bool, State) {
    var s1 := CloseOthers(s, c.fails);
    if s1.context.Some? && !c.contextCloses then (false, s1)
    else (true, Select(s1.(context := None), None, 0))
  }

  lemma CloseCurrentOutcome(s: State, c: CloseInputs)
    ensures var (closed, s1) := CloseCurrent(s, c);
      && (closed <==> s.context.None? || c.contextCloses)
      && (closed ==> s1.context.None? && s1.page.None? && WorkingOf(s1).None?)
      && (!closed ==> s1.context.Some? && s1.context.value.id == s.context.value.id && WorkingOf(s1) == WorkingOf(s))
      && s1.cleanup == s.cleanup
  {
    CloseOthersKeepsWorking(s, c.fails);
  }

  // ---------------------------------------------------------------------
  // Navigation

  /** What `navigate_to_url` raises or returns, and the seconds it slept. */
  datatype NavOutcome = NavOutcome(result: Result<(), Exc>, sleeps: seq<nat>)

  /** Attempt `k` of `retryTimes`; `goto(k)` is what `page.goto` raised on
      attempt `k`, or None when it loaded. */
  function NavigateFrom(url: string, retryTimes: nat, goto: nat -> Option<Exc>, k: nat): NavOutcome
    decreases retryTimes - k
  {
    if k >= retryTimes then NavOutcome(Ok(()), [])
    else
      match goto(k)
      case None => NavOutcome(Ok(()), [5])
      case Some(e) =>
        if k >= retryTimes - 1 then NavOutcome(Err(FailedToNavigateToUrl(url, Text(e))), [])
        else
          var rest := NavigateFrom(url, retryTimes, goto, k + 1);
          NavOutcome(rest.result, [1] + rest.sleeps)
  }

  /** `navigate_to_url(page, url, retry_times)`. */
  function Navigate(url: string, retryTimes: nat, goto: nat -> Option<Exc>): NavOutcome {
    NavigateFrom(url, retryTimes, goto, 0)
  }

  /** `n` pauses of one second. */
  function Pauses(n: nat): (r: seq<nat>)
    ensures |r| == n && forall i :: 0 <= i < n ==> r[i] == 1
  {
    if n == 0 then [] else [1] + Pauses(n - 1)
  }

  lemma {:induction false} NavigateFromSucceeds(url: string, retryTimes: nat, goto: nat -> Option<Exc>, k: nat)
    requires k < retryTimes
    ensures NavigateFrom(url, retryTimes, goto, k).result.Ok? <==> exists j :: k <= j < retryTimes && goto(j).None?
    decreases retryTimes - k
  {
    if goto(k).Some? && k < retryTimes - 1 {
      NavigateFromSucceeds(url, retryTimes, goto, k + 1);
      if exists j :: k <= j < retryTimes && goto(j).None? {
        var j :| k <= j < retryTimes && goto(j).None?;
        assert j != k;
      }
    }
  }

  lemma {:induction false} NavigateFromFails(url: string, retryTimes: nat, goto: nat -> Option<Exc>, k: nat)
    requires k < retryTimes
    requires NavigateFrom(url, retryTimes, goto, k).result.Err?
    ensures goto(retryTimes - 1).Some?
    ensures NavigateFrom(url, retryTimes, goto, k).result.error == FailedToNavigateToUrl(url, Text(goto(retryTimes - 1).value))
    ensures NavigateFrom(url, retryTimes, goto, k).sleeps == Pauses(retryTimes - 1 - k)
    decreases retryTimes - k
  {
    if k < retryTimes - 1 {
      NavigateFromFails(url, retryTimes, goto, k + 1);
      assert Pauses(retryTimes - 1 - k) == [1] + Pauses(retryTimes - 1 - (k + 1));
    }
  }

  lemma {:induction false} NavigateFromPauses(url: string, retryTimes: nat, goto: nat -> Option<Exc>, k: nat, j: nat)
    requires k <= j < retryTimes && goto(j).None?
    requires forall i :: k <= i < j ==> goto(i).Some?
    ensures NavigateFrom(url, retryTimes, goto, k) == NavOutcome(Ok(()), Pauses(j - k) + [5])
    decreases j - k
  {
    if k < j {
      assert goto(k).Some?;
      NavigateFromPauses(url, retryTimes, goto, k + 1, j);
      assert Pauses(j - k) == [1] + Pauses(j - (k + 1));
    }
  }

  /** Navigation succeeds exactly when one of the attempts loads (or when
      no attempt is made at all); it waits five seconds after the load and
      one second after each failed attempt but the last, and a failure
      reports the error of the last attempt. */
  lemma NavigateOutcome(url: string, retryTimes: nat, goto: nat -> Option<Exc>)
    ensures var r := Navigate(url, retryTimes, goto);
      && (retryTimes == 0 ==> r == NavOutcome(Ok(()), []))
      && (r.result.Ok? <==> retryTimes == 0 || exists j :: 0 <= j < retryTimes && goto(j).None?)
      && (r.result.Err? ==>
            (retryTimes > 0 &&
             r.result.error == FailedToNavigateToUrl(url, Text(goto(retryTimes - 1).value)) &&
             r.sleeps == Pauses(retryTimes - 1)))
      && (forall j :: 0 <= j < retryTimes && goto(j).None? && (forall i :: 0 <= i < j ==> goto(i).Some?) ==>
            r.sleeps == Pauses(j) + [5])
  {
    var r := Navigate(url, retryTimes, goto);
    if retryTimes > 0 {
      NavigateFromSucceeds(url, retryTimes, goto, 0);
      if r.result.Err? {
        NavigateFromFails(url, retryTimes, goto, 0);
      }
      forall j | 0 <= j < retryTimes && goto(j).None? && (forall i :: 0 <= i < j ==> goto(i).Some?)
        ensures r.sleeps == Pauses(j) + [5]
      {
        NavigateFromPauses(url, retryTimes, goto, 0, j);
      }
    }
  }

  // ---------------------------------------------------------------------
  // Setting up the working page

  /** Whether a page may be reused: `about:blank`, or an address whose
      `urlparse` scheme is http or https; `urlparse` raises ValueError on
      an unbalanced IPv6 bracket. */
  function IsWebPage(url: string): Result<bool, Exc> {
    if url == "about:blank" then Ok(true)
    else
      match UrlSplit(url)
      case None => Err(ValueError("Invalid IPv6 URL"))
      case Some(parts) => Ok(parts.scheme == "http" || parts.scheme == "https")
  }

  /** The list comprehension over the context's pages. */
  function WebPages(pages: seq<Page>): (r: Result<seq<Page>, Exc>)
    ensures r.Ok? <==> forall i :: 0 <= i < |pages| ==> IsWebPage(pages[i].url).Ok?
    ensures r.Err? ==> r.error == ValueError("Invalid IPv6 URL")
    ensures r.Ok? ==> forall p :: p in r.value ==> p in pages && IsWebPage(p.url) == Ok(true)
  {
    if pages == [] then Ok([])
    else
      match IsWebPage(pages[0].url)
      case Err(e) => Err(e)
      case Ok(b) =>
        match WebPages(pages[1..])
        case Err(e) => Err(e)
        case Ok(rest) => Ok(if b then [pages[0]] + rest else rest)
  }

  /** `pages[i]` is reusable and no page before it is. */
  predicate FirstWebPageAt(pages: seq<Page>, i: int) {
    && 0 <= i < |pages| && IsWebPage(pages[i].url) == Ok(true)
    && forall j :: 0 <= j < i ==> IsWebPage(pages[j].url) == Ok(false)
  }

  /** The first page of the comprehension is the first reusable page. */
  lemma {:induction false} WebPagesFirst(pages: seq<Page>)
    requires WebPages(pages).Ok? && WebPages(pages).value != []
    ensures exists i :: FirstWebPageAt(pages, i) && pages[i] == WebPages(pages).value[0]
  {
    var rest := pages[1..];
    if IsWebPage(pages[0].url) == Ok(true) {
      assert FirstWebPageAt(pages, 0) && pages[0] == WebPages(pages).value[0];
    } else {
      assert IsWebPage(pages[0].url) == Ok(false);
      assert WebPages(pages) == WebPages(rest);
      WebPagesFirst(rest);
      var i :| FirstWebPageAt(rest, i) && rest[i] == WebPages(rest).value[0];
      forall j | 0 <= j < i + 1 ensures IsWebPage(pages[j].url) == Ok(false) {
        if j > 0 {
          assert pages[j] == rest[j - 1];
        }
      }
      assert FirstWebPageAt(pages, i + 1) && pages[i + 1] == WebPages(pages).value[0];
    }
  }

  /** The page reused when the browser was reached at an address: none
      without an address or without pages, else the first reusable page. */
  function ExistingPage(pages: seq<Page>, browserAddress: Option<string>): Result<Option<Page>, Exc> {
    if browserAddress.None? || browserAddress.value == "" || pages == [] then Ok(None)
    else
      match WebPages(pages)
      case Err(e) => Err(e)
      case Ok(web) => Ok(if web == [] then None else Some(web[0]))
  }

  lemma ExistingPageIsFirstWebPage(pages: seq<Page>, browserAddress: Option<string>)
    ensures ExistingPage(pages, browserAddress).Ok? && ExistingPage(pages, browserAddress).value.Some? ==>
      && browserAddress.Some? && browserAddress.value != ""
      && exists i :: FirstWebPageAt(pages, i) && pages[i] == ExistingPage(pages, browserAddress).value.value
    ensures browserAddress.None? ==> ExistingPage(pages, browserAddress) == Ok(None)
  {
    var e := ExistingPage(pages, browserAddress);
    if e.Ok? && e.value.Some? {
      WebPagesFirst(pages);
    }
  }

  /** The browser's answers during one `check_and_fix_state`: the
      configured browser type (`settings.BROWSER_TYPE`) and what the
      factory's creator, the listener set-up and the close on failure
      produced; the pages a new context comes with; the page `new_page`
      opens; the pages that fail to close; and, for navigation, the number
      of attempts and what each attempt raised. */
  datatype FixInputs = FixInputs(
    browserType: string, creator: CreatorOutcome, setupError: Option<Exc>, closeError: Option<Exc>, log: NewLog,
    initialPages: seq<Page>, newPage: Page, closeFails: set<PageId>,
    retryTimes: nat, goto: nat -> Option<Exc>)

  /** The first half of `check_and_fix_state`: a missing context is made
      by the factory. */
  function WithContext(s: State, creators: map<string, Creator>, f: FixInputs): (r: Result<State, Exc>)
    ensures r.Ok? ==> r.value.context.Some?
    ensures s.context.Some? ==> r == Ok(s)
  {
    if s.context.Some? then Ok(s)
    else
      var made := CreateWith(creators, f.browserType, f.creator, f.setupError, f.closeError, f.log);
      match made.result
      case Err(e) => Err(e)
      case Ok(c) => Ok(s.(context := Some(Context(c.context, f.initialPages)), artifacts := c.artifacts, cleanup := c.cleanup))
  }

  function AddPage(s: State, p: Page): State
    requires s.context.Some?
  {
    s.(context := Some(s.context.value.(pages := s.context.value.pages + [p])))
  }

  /** Whether the chosen page is to be sent to `url`: only for a non-empty
      address that differs from the page's one other than in trailing
      slashes. */
  predicate MustNavigate(pageUrl: string, url: Option<string>) {
    url.Some? && url.value != "" && RStripChar(pageUrl, '/') != RStripChar(url.value, '/')
  }

  /** `check_and_fix_state`. */
  function CheckAndFix(s: State, creators: map<string, Creator>, url: Option<string>,
                       browserAddress: Option<string>, f: FixInputs): Done<()> {
    match WithContext(s, creators, f)
    case Err(e) => Done(Err(e), s)
    case Ok(s1) =>
      var (w, s2) := GetWorking(s1);
      if w.Some? then Done(Ok(()), s2)
      else
        match ExistingPage(PagesOf(s2), browserAddress)
        case Err(e) => Done(Err(e), s2)
        case Ok(existing) =>
          var p := existing.GetOr(f.newPage);
          var s3 := if existing.Some? then s2 else AddPage(s2, f.newPage);
          var s4 := Select(s3, Some(p), 0);
          var s5 := if existing.Some? then s4 else CloseOthers(s4, f.closeFails);
          if MustNavigate(p.url, url) then Done(Navigate(url.value, f.retryTimes, f.goto).result, s5)
          else Done(Ok(()), s5)
  }

  /** With a working page already there, nothing is created, opened or
      loaded. */
  lemma CheckAndFixKeepsWorkingPage(s: State, creators: map<string, Creator>, url: Option<string>,
                                    browserAddress: Option<string>, f: FixInputs)
    requires WorkingOf(s).Some?
    ensures CheckAndFix(s, creators, url, browserAddress, f) == Done(Ok(()), GetWorking(s).1)
  {
  }

  /** A context that cannot be made leaves the state as it was and raises
      the factory's error. */
  lemma CheckAndFixCreateFails(s: State, creators: map<string, Creator>, url: Option<string>,
                               browserAddress: Option<string>, f: FixInputs)
    requires s.context.None?
    requires CreateWith(creators, f.browserType, f.creator, f.setupError, f.closeError, f.log).result.Err?
    ensures CheckAndFix(s, creators, url, browserAddress, f) ==
      Done(Err(CreateWith(creators, f.browserType, f.creator, f.setupError, f.closeError, f.log).result.error), s)
  {
  }

  /** After `check_and_fix_state` the context exists and, unless the
      reuse test raised, there is a working page, even when navigation
      failed. */
  lemma CheckAndFixReady(s: State, creators: map<string, Creator>, url: Option<string>,
                         browserAddress: Option<string>, f: FixInputs)
    requires WithContext(s, creators, f).Ok?
    ensures var r := CheckAndFix(s, creators, url, browserAddress, f);
      && r.state.context.Some?
      && (r.result.Ok? || r.result.error.FailedToNavigateToUrl? ==> WorkingOf(r.state).Some?)
  {
    var s1 := WithContext(s, creators, f).value;
    var (w, s2) := GetWorking(s1);
    GetWorkingIsStable(s1);
    if w.None? {
      var existing := ExistingPage(PagesOf(s2), browserAddress);
      if existing.Ok? {
        AdoptedPageIsWorking(s2, existing.value, f);
      }
    }
  }

  /** Adopting the page found, or a new one, makes it the working page. */
  lemma AdoptedPageIsWorking(s2: State, existing: Option<Page>, f: FixInputs)
    requires s2.context.Some? && (existing.Some? ==> PagesOf(s2) != [])
    ensures var p := existing.GetOr(f.newPage);
      var s3 := if existing.Some? then s2 else AddPage(s2, f.newPage);
      var s4 := Select(s3, Some(p), 0);
      var s5 := if existing.Some? then s4 else CloseOthers(s4, f.closeFails);
      s5.context.Some? && WorkingOf(s5).Some?
  {
    var s3 := if existing.Some? then s2 else AddPage(s2, f.newPage);
    var s4 := Select(s3, Some(existing.GetOr(f.newPage)), 0);
    if existing.None? {
      assert PagesOf(s3) == PagesOf(s2) + [f.newPage];
    }
    assert WorkingOf(s4).Some?;
    CloseOthersKeepsWorking(s4, f.closeFails);
  }

  // ---------------------------------------------------------------------
  // Getting a page

  /** The page content `validate_browser_context` reads, and what it
      raised. */
  function ValidateBrowserContext(content: Result<string, Exc>): (r: bool)
    ensures r ==> content.Ok?
    ensures content.Ok? ==>
      (r <==> !Contains(content.value, "Bad gateway error") && !Contains(content.value, "client_connect_forbidden_host"))
  {
    content.Ok? && !Contains(content.value, "Bad gateway error") && !Contains(content.value, "client_connect_forbidden_host")
  }

  /** The browser's answers during one `get_or_create_page`: the first
      set-up, the close and second set-up after a network error, the page
      content, and the close and third set-up after a rejected page. */
  datatype PageInputs = PageInputs(
    first: FixInputs, networkClose: CloseInputs, afterNetworkError: FixInputs,
    content: Result<string, Exc>, invalidClose: CloseInputs, afterInvalid: FixInputs)

  /** The `try` of `get_or_create_page`: one retry, after closing the
      context, for an error that mentions net::ERR. */
  function FixWithRetry(s: State, creators: map<string, Creator>, url: Option<string>,
                        browserAddress: Option<string>, answers: PageInputs): Done<()> {
    var d := CheckAndFix(s, creators, url, browserAddress, answers.first);
    if d.result.Ok? || !IsNetworkError(d.result.error) then d
    else
      var (closed, s1) := CloseCurrent(d.state, answers.networkClose);
      if !closed then Done(d.result, s1)
      else CheckAndFix(s1, creators, url, browserAddress, answers.afterNetworkError)
  }

  /** `get_or_create_page`. */
  function GetOrCreate(s: State, creators: map<string, Creator>, url: Option<string>,
                       browserAddress: Option<string>, answers: PageInputs): Done<Page> {
    var (w, s1) := GetWorking(s);
    if w.Some? then Done(Ok(w.value), s1)
    else
      var d := FixWithRetry(s1, creators, url, browserAddress, answers);
      if d.result.Err? then Done(Err(d.result.error), d.state)
      else
        var a := AssertPage(d.state);
        if a.result.Err? then a
        else Recheck(a, creators, url, browserAddress, answers)
  }

  /** The content check at the end of `get_or_create_page`, once a page
      `a` was found: a rejected page is closed and the state set up once
      more. */
  function Recheck(a: Done<Page>, creators: map<string, Creator>, url: Option<string>,
                   browserAddress: Option<string>, answers: PageInputs): Done<Page>
    requires a.result.Ok?
  {
    var (_, s2) := GetWorking(a.state);
    if ValidateBrowserContext(answers.content) then Done(a.result, s2)
    else
      var (closed, s3) := CloseCurrent(s2, answers.invalidClose);
      if !closed then Done(a.result, s3)
      else
        var d2 := CheckAndFix(s3, creators, url, browserAddress, answers.afterInvalid);
        if d2.result.Err? then Done(Err(d2.result.error), d2.state)
        else AssertPage(d2.state)
  }

  /** The content check hands back the working page, if any. */
  lemma RecheckReturnsWorkingPage(a: Done<Page>, creators: map<string, Creator>, url: Option<string>,
                                  browserAddress: Option<string>, answers: PageInputs)
    requires a.result.Ok? && WorkingOf(a.state) == Some(a.result.value)
    ensures var r := Recheck(a, creators, url, browserAddress, answers);
      r.result.Ok? ==> WorkingOf(r.state) == Some(r.result.value)
  {
    var (_, s2) := GetWorking(a.state);
    GetWorkingIsStable(a.state);
    if !ValidateBrowserContext(answers.content) {
      CloseCurrentOutcome(s2, answers.invalidClose);
      var (closed, s3) := CloseCurrent(s2, answers.invalidClose);
      if closed {
        var d2 := CheckAndFix(s3, creators, url, browserAddress, answers.afterInvalid);
        AssertPageIsWorking(d2.state);
      }
    }
  }

  /** A page handed back is the state's working page. */
  lemma GetOrCreateReturnsWorkingPage(s: State, creators: map<string, Creator>, url: Option<string>,
                                      browserAddress: Option<string>, answers: PageInputs)
    ensures var r := GetOrCreate(s, creators, url, browserAddress, answers);
      r.result.Ok? ==> WorkingOf(r.state) == Some(r.result.value)
  {
    var (w, s1) := GetWorking(s);
    GetWorkingIsStable(s);
    if w.None? {
      var d := FixWithRetry(s1, creators, url, browserAddress, answers);
      if d.result.Ok? {
        var a := AssertPage(d.state);
        AssertPageIsWorking(d.state);
        if a.result.Ok? {
          RecheckReturnsWorkingPage(a, creators, url, browserAddress, answers);
        }
      }
    }
  }

  /** Only an error that mentions net::ERR is retried: any other error of
      the first set-up is raised as it is. */
  lemma OnlyNetworkErrorsRetried(s: State, creators: map<string, Creator>, url: Option<string>,
                                 browserAddress: Option<string>, answers: PageInputs)
    requires WorkingOf(s).None?
    requires var d := CheckAndFix(GetWorking(s).1, creators, url, browserAddress, answers.first);
      d.result.Err? && !IsNetworkError(d.result.error)
    ensures GetOrCreate(s, creators, url, browserAddress, answers).result ==
      Err(CheckAndFix(GetWorking(s).1, creators, url, browserAddress, answers.first).result.error)
  {
  }

  /** After a net::ERR error the context is closed and set up once more;
      when that close fails, the original error is raised. */
  lemma NetworkErrorRetriedOnce(s: State, creators: map<string, Creator>, url: Option<string>,
                                browserAddress: Option<string>, answers: PageInputs)
    requires WorkingOf(s).None?
    ensures var s1 := GetWorking(s).1;
      var d := CheckAndFix(s1, creators, url, browserAddress, answers.first);
      var (closed, s2) := CloseCurrent(d.state, answers.networkClose);
      && (d.result.Err? && IsNetworkError(d.result.error) && !closed ==>
            GetOrCreate(s, creators, url, browserAddress, answers).result == Err(d.result.error))
      && (d.result.Err? && IsNetworkError(d.result.error) && closed ==>
            FixWithRetry(s1, creators, url, browserAddress, answers)
              == CheckAndFix(s2, creators, url, browserAddress, answers.afterNetworkError))
  {
  }

  /** A page whose content is rejected is closed and replaced once, without
      a second check; when that close fails, the rejected page is returned. */
  lemma RejectedPageKeptWhenCloseFails(s: State, creators: map<string, Creator>, url: Option<string>,
                                       browserAddress: Option<string>, answers: PageInputs)
    requires WorkingOf(s).None? && !ValidateBrowserContext(answers.content)
    ensures var d := FixWithRetry(GetWorking(s).1, creators, url, browserAddress, answers);
      var a := AssertPage(d.state);
      var (closed, s3) := CloseCurrent(GetWorking(a.state).1, answers.invalidClose);
      var r := GetOrCreate(s, creators, url, browserAddress, answers);
      && (d.result.Ok? && a.result.Ok? && !closed ==> r.result == a.result)
      && (d.result.Ok? && a.result.Ok? && closed ==>
            var d2 := CheckAndFix(s3, creators, url, browserAddress, answers.afterInvalid);
            r == if d2.result.Err? then Done(Err(d2.result.error), d2.state) else AssertPage(d2.state))
  {
  }

  // ---------------------------------------------------------------------
  // Closing the state

  /** The effects of `close`, in order. */
  datatype CloseStep = CloseContext | RunCleanup(cleanup: CleanupFunc) | StopPlaywright

  /** `close(close_browser_on_completion)`: with the flag off nothing is
      closed; otherwise the context is closed, then its cleanup runs unless
      the close used up `BROWSER_CLOSE_TIMEOUT`, then Playwright is
      stopped. Errors in each step are only logged; the fields are left as
      they are. */
  function CloseSteps(s: State, closeBrowserOnCompletion: bool, contextCloseTimesOut: bool): seq<CloseStep> {
    if !closeBrowserOnCompletion then []
    else
      (if s.context.None? then []
       else [CloseContext] + (if !contextCloseTimesOut && s.cleanup.Some? then [RunCleanup(s.cleanup.value)] else []))
      + [StopPlaywright]
  }

  /** The cleanup never runs before the context is closed, runs at most
      once, and Playwright is stopped last whenever anything is closed. */
  lemma CloseOrder(s: State, closeBrowserOnCompletion: bool, contextCloseTimesOut: bool)
    ensures var steps := CloseSteps(s, closeBrowserOnCompletion, contextCloseTimesOut);
      && (!closeBrowserOnCompletion <==> steps == [])
      && (closeBrowserOnCompletion ==> steps[|steps| - 1] == StopPlaywright)
      && (forall i :: 0 <= i < |steps| && steps[i].RunCleanup? ==>
            i == 1 && steps[0] == CloseContext && steps[i].cleanup == s.cleanup.value)
      && (closeBrowserOnCompletion && s.context.Some? && s.cleanup.Some? && !contextCloseTimesOut ==>
            steps == [CloseContext, RunCleanup(s.cleanup.value), StopPlaywright])
  {
  }

  // ---------------------------------------------------------------------
  // The object

  class BrowserState {
    var page: Option<Page>
    var context: Option<Context>
    var artifacts: BrowserArtifacts
    var cleanup: Option<CleanupFunc>

    function View(): State
      reads this
    {
      State(page, context, artifacts, cleanup)
    }

    constructor(context: Option<Context>, page: Option<Page>, artifacts: BrowserArtifacts, cleanup: Option<CleanupFunc>)
      ensures View() == State(page, context, artifacts, cleanup)
    {
      this.page := page;
      this.context := context;
      this.artifacts := artifacts;
      this.cleanup := cleanup;
    }

    method SetWorkingPage(p: Option<Page>, index: nat)
      modifies this
      ensures View() == Select(old(View()), p, index)
    {
      page := p;
      if p.None? {
        return;
      }
      artifacts := artifacts.(videoArtifacts := RecordVideo(artifacts.videoArtifacts, index, p.value.video));
    }

    method GetWorkingPage() returns (r: Option<Page>)
      modifies this
      ensures (r, View()) == GetWorking(old(View()))
    {
      if page.None? || context.None? || |context.value.pages| == 0 {
        return None;
      }
      var last := context.value.pages[|context.value.pages| - 1];
      if page.value.id == last.id {
        return Some(last);
      }
      SetWorkingPage(Some(last), |context.value.pages| - 1);
      return Some(last);
    }

    method MustGetWorkingPage() returns (r: Result<Page, Exc>)
      modifies this
      ensures var (w, s) := GetWorking(old(View()));
        View() == s && (w.Some? ==> r == Ok(w.value)) && (w.None? ==> r == Err(AssertionError))
    {
      var w := GetWorkingPage();
      if w.None? {
        return Err(AssertionError);
      }
      return Ok(w.value);
    }

    method AssertWorkingPage() returns (r: Result<Page, Exc>)
      modifies this
      ensures Done(r, View()) == AssertPage(old(View()))
    {
      var w := GetWorkingPage();
      if w.None? {
        return Err(MissingBrowserStatePage);
      }
      return Ok(w.value);
    }

    method CloseAllOtherPages(fails: set<PageId>)
      modifies this
      ensures View() == CloseOthers(old(View()), fails)
    {
      var cur := GetWorkingPage();
      if context.None? || cur.None? {
        return;
      }
      var pages := context.value.pages;
      var kept: seq<Page> := [];
      var i := 0;
      while i < |pages|
        invariant 0 <= i <= |pages|
        invariant kept == Survivors(pages[..i], cur.value.id, fails)
      {
        assert pages[..i + 1][..i] == pages[..i];
        if pages[i].id != cur.value.id && pages[i].id !in fails {
          // page.close() succeeded: the page leaves the context
        } else {
          kept := kept + [pages[i]];
        }
        i := i + 1;
      }
      assert pages[..|pages|] == pages;
      context := Some(context.value.(pages := kept));
    }

    method NavigateToUrl(url: string, retryTimes: nat, goto: nat -> Option<Exc>) returns (r: Result<(), Exc>, sleeps: seq<nat>)
      ensures NavOutcome(r, sleeps) == Navigate(url, retryTimes, goto)
    {
      sleeps := [];
      var k := 0;
      while k < retryTimes
        invariant 0 <= k <= retryTimes
        invariant Navigate(url, retryTimes, goto) ==
          NavOutcome(NavigateFrom(url, retryTimes, goto, k).result, sleeps + NavigateFrom(url, retryTimes, goto, k).sleeps)
      {
        var raised := goto(k);
        if raised.None? {
          return Ok(()), sleeps + [5];
        }
        if k >= retryTimes - 1 {
          assert sleeps + [] == sleeps;
          return Err(FailedToNavigateToUrl(url, Text(raised.value))), sleeps;
        }
        assert sleeps + ([1] + NavigateFrom(url, retryTimes, goto, k + 1).sleeps)
            == (sleeps + [1]) + NavigateFrom(url, retryTimes, goto, k + 1).sleeps;
        sleeps := sleeps + [1];
        k := k + 1;
      }
      assert sleeps + [] == sleeps;
      return Ok(()), sleeps;
    }

    method CloseCurrentOpenPage(c: CloseInputs) returns (r: bool)
      modifies this
      ensures (r, View()) == CloseCurrent(old(View()), c)
    {
      CloseAllOtherPages(c.fails);
      if context.Some? && !c.contextCloses {
        return false;
      }
      context := None;
      SetWorkingPage(None, 0);
      return true;
    }

    method CheckAndFixState(factory: BrowserContextFactory, url: Option<string>,
                            browserAddress: Option<string>, f: FixInputs) returns (r: Result<(), Exc>)
      modifies this
      ensures Done(r, View()) == CheckAndFix(old(View()), factory.creators, url, browserAddress, f)
    {
      if context.None? {
        var made := factory.CreateBrowserContext(f.browserType, f.creator, f.setupError, f.closeError, f.log);
        if made.result.Err? {
          return Err(made.result.error);
        }
        context := Some(Context(made.result.value.context, f.initialPages));
        artifacts := made.result.value.artifacts;
        cleanup := made.result.value.cleanup;
      }
      var w := GetWorkingPage();
      if w.Some? {
        return Ok(());
      }
      var existing := ExistingPage(context.value.pages, browserAddress);
      if existing.Err? {
        return Err(existing.error);
      }
      var p: Page;
      if existing.value.Some? {
        p := existing.value.value;
      } else {
        p := f.newPage;
        context := Some(context.value.(pages := context.value.pages + [p]));
      }
      SetWorkingPage(Some(p), 0);
      if existing.value.None? {
        CloseAllOtherPages(f.closeFails);
      }
      if MustNavigate(p.url, url) {
        var sleeps;
        r, sleeps := NavigateToUrl(url.value, f.retryTimes, f.goto);
        return r;
      }
      return Ok(());
    }

    method GetOrCreatePage(factory: BrowserContextFactory, url: Option<string>,
                           browserAddress: Option<string>, answers: PageInputs) returns (r: Result<Page, Exc>)
      modifies this
      ensures Done(r, View()) == GetOrCreate(old(View()), factory.creators, url, browserAddress, answers)
    {
      var w := GetWorkingPage();
      if w.Some? {
        return Ok(w.value);
      }
      var fixed := CheckAndFixState(factory, url, browserAddress, answers.first);
      if fixed.Err? {
        if !IsNetworkError(fixed.error) {
          return Err(fixed.error);
        }
        var closed := CloseCurrentOpenPage(answers.networkClose);
        if !closed {
          return Err(fixed.error);
        }
        fixed := CheckAndFixState(factory, url, browserAddress, answers.afterNetworkError);
        if fixed.Err? {
          return Err(fixed.error);
        }
      }
      r := AssertWorkingPage();
      if r.Err? {
        return r;
      }
      var _ := GetWorkingPage();
      if ValidateBrowserContext(answers.content) {
        return r;
      }
      var closed := CloseCurrentOpenPage(answers.invalidClose);
      if !closed {
        return r;
      }
      fixed := CheckAndFixState(factory, url, browserAddress, answers.afterInvalid);
      if fixed.Err? {
        return Err(fixed.error);
      }
      r := AssertWorkingPage();
    }

    /** `stop_page_loading`: `evalError` is what evaluating `window.stop()`
        raised. */
    method StopPageLoading(evalError: Option<Exc>) returns (r: Result<(), Exc>)
      modifies this
      ensures var a := AssertPage(old(View()));
        && View() == a.state
        && (a.result.Err? ==> r == Err(a.result.error))
        && (a.result.Ok? && evalError.Some? ==> r == Err(FailedToStopLoadingPage(a.result.value.url, Repr(evalError.value))))
        && (a.result.Ok? && evalError.None? ==> r == Ok(()))
    {
      var p := AssertWorkingPage();
      if p.Err? {
        return Err(p.error);
      }
      if evalError.Some? {
        return Err(FailedToStopLoadingPage(p.value.url, Repr(evalError.value)));
      }
      return Ok(());
    }

    /** `reload_page`: `reloadError` is what `page.reload` raised; a
        successful reload is followed by a five second pause. */
    method ReloadPage(reloadError: Option<Exc>) returns (r: Result<(), Exc>, sleeps: seq<nat>)
      modifies this
      ensures var a := AssertPage(old(View()));
        && View() == a.state
        && (a.result.Err? ==> r == Err(a.result.error) && sleeps == [])
        && (a.result.Ok? && reloadError.Some? ==>
              r == Err(FailedToReloadPage(a.result.value.url, Repr(reloadError.value))) && sleeps == [])
        && (a.result.Ok? && reloadError.None? ==> r == Ok(()) && sleeps == [5])
    {
      sleeps := [];
      var p := AssertWorkingPage();
      if p.Err? {
        return Err(p.error), sleeps;
      }
      if reloadError.Some? {
        return Err(FailedToReloadPage(p.value.url, Repr(reloadError.value))), sleeps;
      }
      return Ok(()), [5];
    }

    method Close(closeBrowserOnCompletion: bool, contextCloseTimesOut: bool) returns (steps: seq<CloseStep>)
      ensures steps == CloseSteps(View(), closeBrowserOnCompletion, contextCloseTimesOut)
    {
      steps := [];
      if context.Some? && closeBrowserOnCompletion {
        steps := steps + [CloseContext];
        if !contextCloseTimesOut && cleanup.Some? {
          steps := steps + [RunCleanup(cleanup.value)];
        }
      }
      if closeBrowserOnCompletion {
        steps := steps + [StopPlaywright];
      }
    }
  }
}
