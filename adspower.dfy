/** The AdsPower local API client (skyvern/webeye/adspower_service.py): the
    service check, starting and stopping one AdsPower browser profile. The
    HTTP exchanges are inputs: each call says what the request produced. */
module AdsPower {
  import opened Wrappers
  import opened PyStr
  import opened Errors
  import opened Schemas

  /** `AdsPowerService()` talks to this address. */
  const DefaultBaseUrl: string := "http://localhost:50325"

  /** One entry of `data.list` in the `/api/v1/user/list` reply; a None
      field is a key that is missing. */
  datatype BrowserRecord = BrowserRecord(
    userId: Option<string>, name: Option<string>, serialNumber: Option<string>,
    remark: Option<string>, groupId: Option<string>, status: Option<string>)

  /** What `GET /api/v1/status` produced. */
  datatype StatusOutcome = StatusReply(httpStatus: int) | StatusTimedOut | StatusFailed(error: string)

  /** What `GET /api/v1/user/list` produced: the reply's `code` (None when
      missing) and `data.list` (empty when missing). */
  datatype ListOutcome = ListReply(code: Option<int>, records: seq<BrowserRecord>) | ListTimedOut | ListFailed(error: string)

  /** `AdsPowerBrowserInfo(...)` built from one record, with the defaults
      `check_status` uses for missing keys. */
  function BrowserInfoOf(b: BrowserRecord): (info: AdsPowerBrowserInfo)
    ensures info.userId == b.userId.GetOr("") && info.name == b.name.GetOr("")
    ensures info.serialNumber == b.serialNumber.GetOr("") && info.status == b.status.GetOr("Unknown")
    ensures info.remark == b.remark && info.groupId == b.groupId
  {
    AdsPowerBrowserInfo(b.userId.GetOr(""), b.name.GetOr(""), b.serialNumber.GetOr(""), b.remark, b.groupId,
                        b.status.GetOr("Unknown"))
  }

  const TimeoutMessage: string := "AdsPower连接超时，请检查客户端是否启动"
  const ListFailedMessage: string := "AdsPower连接正常，但获取浏览器列表失败"

  function HttpErrorMessage(status: int): string {
    "AdsPower服务响应异常: HTTP " + IntToString(status)
  }

  function UnreachableMessage(error: string): string {
    "AdsPower客户端未启动或网络异常: " + error
  }

  function FoundMessage(count: nat): string {
    "AdsPower连接正常，找到 " + NatToString(count) + " 个浏览器"
  }

  /** The status `check_status` reports, as a function of the two replies. */
  function Status(s: StatusOutcome, l: ListOutcome): (r: AdsPowerStatus)
    ensures !r.available ==> r.browsers == []
  {
    match s
    case StatusTimedOut => AdsPowerStatus(false, TimeoutMessage, [])
    case StatusFailed(e) => AdsPowerStatus(false, UnreachableMessage(e), [])
    case StatusReply(code) =>
      if code != 200 then AdsPowerStatus(false, HttpErrorMessage(code), [])
      else
        match l
        case ListTimedOut => AdsPowerStatus(false, TimeoutMessage, [])
        case ListFailed(e) => AdsPowerStatus(false, UnreachableMessage(e), [])
        case ListReply(c, records) =>
          if c != Some(0) then AdsPowerStatus(true, ListFailedMessage, [])
          else
            var infos := seq(|records|, i requires 0 <= i < |records| => BrowserInfoOf(records[i]));
            AdsPowerStatus(true, FoundMessage(|infos|), infos)
  }

  /** `check_status()`: the browser list is built one record at a time. */
  method CheckStatus(s: StatusOutcome, l: ListOutcome) returns (r: AdsPowerStatus)
    ensures r == Status(s, l)
  {
    match s {
      case StatusTimedOut => return AdsPowerStatus(false, TimeoutMessage, []);
      case StatusFailed(e) => return AdsPowerStatus(false, UnreachableMessage(e), []);
      case StatusReply(code) =>
        if code != 200 {
          return AdsPowerStatus(false, HttpErrorMessage(code), []);
        }
    }
    match l {
      case ListTimedOut => return AdsPowerStatus(false, TimeoutMessage, []);
      case ListFailed(e) => return AdsPowerStatus(false, UnreachableMessage(e), []);
      case ListReply(c, records) =>
        if c != Some(0) {
          return AdsPowerStatus(true, ListFailedMessage, []);
        }
        var browsers: seq<AdsPowerBrowserInfo> := [];
        var i := 0;
        while i < |records|
          invariant 0 <= i <= |records|
          invariant |browsers| == i
          invariant forall j :: 0 <= j < i ==> browsers[j] == BrowserInfoOf(records[j])
        {
          browsers := browsers + [BrowserInfoOf(records[i])];
          i := i + 1;
        }
        return AdsPowerStatus(true, FoundMessage(|browsers|), browsers);
    }
  }

  /** The service counts as available exactly when it answered 200 and the
      list request got through; every listed profile is reported, in order,
      and the message gives their number. */
  lemma StatusAvailability(s: StatusOutcome, l: ListOutcome)
    ensures Status(s, l).available <==> s == StatusReply(200) && l.ListReply?
    ensures s == StatusReply(200) && l.ListReply? && l.code == Some(0) ==>
      && |Status(s, l).browsers| == |l.records|
      && (forall i :: 0 <= i < |l.records| ==> Status(s, l).browsers[i].userId == l.records[i].userId.GetOr(""))
      && Status(s, l).message == FoundMessage(|l.records|)
  {
  }

  /** A timeout on either request is reported as unavailable with a message
      that says so. */
  lemma TimeoutIsReported(s: StatusOutcome, l: ListOutcome)
    requires s.StatusTimedOut? || (s == StatusReply(200) && l.ListTimedOut?)
    ensures !Status(s, l).available && Contains(Status(s, l).message, "超时")
    ensures Status(s, l).browsers == []
  {
    assert TimeoutMessage == "AdsPower连接" + "超时" + "，请检查客户端是否启动";
    ContainsExtend("AdsPower连接", "超时", "，请检查客户端是否启动", "超时");
  }

  /** A profile list as the local API sends it back is read field by field. */
  lemma OneProfileListed()
    ensures var r := BrowserRecord(Some("user123"), Some("Test Browser"), Some("SN12345"), Some("Test remark"),
                                   Some("group1"), Some("Active"));
      var st := Status(StatusReply(200), ListReply(Some(0), [r]));
      && st.available && |st.browsers| == 1
      && st.browsers[0].userId == "user123" && st.browsers[0].name == "Test Browser"
  {
  }

  /** `check_status` as written: `AdsPowerBrowserInfo` is not imported in
      adspower_service.py, so building the first entry raises NameError,
      which the generic handler turns into "not available". */
  function StatusAsWritten(s: StatusOutcome, l: ListOutcome): (r: AdsPowerStatus)
    ensures !r.available ==> r.browsers == []
  {
    if s == StatusReply(200) && l.ListReply? && l.code == Some(0) && l.records != []
    then AdsPowerStatus(false, UnreachableMessage(Text(NameError("AdsPowerBrowserInfo"))), [])
    else Status(s, l)
  }

  /** With one profile in the list the code as written reports the service
      as unavailable, while the intended status lists the profile. */
  lemma MissingImportHidesProfiles(r: BrowserRecord)
    ensures !StatusAsWritten(StatusReply(200), ListReply(Some(0), [r])).available
    ensures Status(StatusReply(200), ListReply(Some(0), [r])).available
    ensures |Status(StatusReply(200), ListReply(Some(0), [r])).browsers| == 1
  {
  }

  /** As written and intended agree whenever the list is empty or never
      read. */
  lemma AsWrittenAgreesOtherwise(s: StatusOutcome, l: ListOutcome)
    requires !(l.ListReply? && l.records != [])
    ensures StatusAsWritten(s, l) == Status(s, l)
  {
  }

  // ---------------------------------------------------------------------
  // start_browser / stop_browser

  /** What `GET /api/v1/browser/start?userId=...` produced: `code`, `msg`
      and `data.ws.selenium` / `data.ws.puppeteer`, None where missing. */
  datatype StartOutcome =
    | StartReply(code: Option<int>, msg: Option<string>, selenium: Option<string>, puppeteer: Option<string>)
    | StartTimedOut
    | StartFailed(error: Exc)

  datatype StartedBrowser = StartedBrowser(success: bool, seleniumUrl: string, puppeteerUrl: string, userId: string)

  const StartFailedPrefix: string := "启动AdsPower浏览器失败: "

  /** `start_browser(user_id)`: the connection addresses on `code == 0`;
      every failure is raised again as one `Exception` whose text starts
      with the fixed prefix. */
  function StartBrowser(userId: string, o: StartOutcome): (r: Result<StartedBrowser, Exc>)
    ensures r.Ok? <==> o.StartReply? && o.code == Some(0)
    ensures r.Ok? ==> r.value.success && r.value.userId == userId
    ensures r.Err? ==> r.error.Raised? && StartFailedPrefix <= r.error.message
  {
    match o
    case StartTimedOut => Err(Raised(StartFailedPrefix + Text(TimeoutError)))
    case StartFailed(e) => Err(Raised(StartFailedPrefix + Text(e)))
    case StartReply(code, msg, selenium, puppeteer) =>
      if code != Some(0) then
        Err(Raised(StartFailedPrefix + ("AdsPower启动浏览器失败: " + msg.GetOr("未知错误"))))
      else
        Ok(StartedBrowser(true, "http://" + selenium.GetOr(""), "ws://" + puppeteer.GetOr(""), userId))
  }

  /** The addresses handed back are the ones the API reported, behind
      "http://" and "ws://". */
  lemma StartedAddresses(userId: string, selenium: string, puppeteer: string, msg: Option<string>)
    ensures var r := StartBrowser(userId, StartReply(Some(0), msg, Some(selenium), Some(puppeteer)));
      && r.Ok?
      && r.value.seleniumUrl[..7] == "http://" && r.value.seleniumUrl[7..] == selenium
      && r.value.puppeteerUrl[..5] == "ws://" && r.value.puppeteerUrl[5..] == puppeteer
  {
  }

  /** A refusal keeps the API's own message, or says it is unknown. */
  lemma StartRefusalKeepsMessage(userId: string, code: Option<int>, msg: Option<string>,
                                 selenium: Option<string>, puppeteer: Option<string>)
    requires code != Some(0)
    ensures var r := StartBrowser(userId, StartReply(code, msg, selenium, puppeteer));
      r.Err? && Contains(Text(r.error), msg.GetOr("未知错误"))
  {
    var m := msg.GetOr("未知错误");
    var pre := StartFailedPrefix + "AdsPower启动浏览器失败: ";
    assert Text(StartBrowser(userId, StartReply(code, msg, selenium, puppeteer)).error) == pre + m;
    ContainsSuffix(pre, m);
  }

  /** What `GET /api/v1/browser/stop?userId=...` produced. */
  datatype StopOutcome = StopReply(code: Option<int>) | StopTimedOut | StopFailed(error: Exc)

  /** `stop_browser(user_id)`: true exactly when the API answered code 0. */
  function StopBrowser(userId: string, o: StopOutcome): (r: bool)
    ensures r <==> o == StopReply(Some(0))
  {
    match o
    case StopReply(code) => code == Some(0)
    case _ => false
  }
}
