/** The browser configuration schema: the backend kind, the per-backend
    configuration and the two AdsPower response models, with the defaults
    the pydantic models declare. */
module Schemas {
  import opened Wrappers

  /** `BrowserType`, a `StrEnum`. */
  datatype BrowserType = SkyvernDefault | LocalCustom | AdsPower

  function BrowserTypeValue(t: BrowserType): string {
    match t
    case SkyvernDefault => "skyvern_default"
    case LocalCustom => "local_custom"
    case AdsPower => "adspower"
  }

  /** `BrowserType(s)`: lookup by value; any other string raises ValueError,
      modelled as None. */
  function ParseBrowserType(s: string): (r: Option<BrowserType>)
    ensures r.Some? ==> BrowserTypeValue(r.value) == s
  {
    if s == "skyvern_default" then Some(SkyvernDefault)
    else if s == "local_custom" then Some(LocalCustom)
    else if s == "adspower" then Some(AdsPower)
    else None
  }

  /** The enumeration has exactly the three values, and each value names
      its member. */
  lemma BrowserTypeValues(s: string)
    ensures ParseBrowserType(s).Some? <==> s in {"skyvern_default", "local_custom", "adspower"}
    ensures forall t :: ParseBrowserType(BrowserTypeValue(t)) == Some(t)
  {
  }

  datatype BrowserConfig = BrowserConfig(
    browserType: BrowserType,
    chromePath: Option<string>,
    chromeArgs: Option<seq<string>>,
    adspowerUserId: Option<string>,
    adspowerGroupId: Option<string>)

  /** `BrowserConfig()` with every field left at its default. */
  function DefaultBrowserConfig(): (c: BrowserConfig)
    ensures c.browserType == SkyvernDefault
    ensures c.chromePath.None? && c.chromeArgs.None?
    ensures c.adspowerUserId.None? && c.adspowerGroupId.None?
  {
    BrowserConfig(SkyvernDefault, None, None, None, None)
  }

  datatype AdsPowerBrowserInfo = AdsPowerBrowserInfo(
    userId: string,
    name: string,
    serialNumber: string,
    remark: Option<string>,
    groupId: Option<string>,
    status: string)

  /** `AdsPowerBrowserInfo(user_id=..., name=..., serial_number=..., status=...)`:
      the four required fields are kept, remark and group_id default to None. */
  function NewBrowserInfo(userId: string, name: string, serialNumber: string, status: string): (b: AdsPowerBrowserInfo)
    ensures b.userId == userId && b.name == name && b.serialNumber == serialNumber && b.status == status
    ensures b.remark.None? && b.groupId.None?
  {
    AdsPowerBrowserInfo(userId, name, serialNumber, None, None, status)
  }

  datatype AdsPowerStatus = AdsPowerStatus(
    available: bool,
    message: string,
    browsers: seq<AdsPowerBrowserInfo>)

  /** `AdsPowerStatus(available=..., message=...)`: browsers defaults to []. */
  function NewAdsPowerStatus(available: bool, message: string): (s: AdsPowerStatus)
    ensures s.available == available && s.message == message && s.browsers == []
  {
    AdsPowerStatus(available, message, [])
  }
}
