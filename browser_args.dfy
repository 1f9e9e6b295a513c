/** Chromium launch flags (`BrowserContextFactory.build_browser_args`,
    skyvern/webeye/browser_factory.py:199-252) and the CDP port keyword
    (`_get_cdp_port`, browser_factory.py:383-390). */
module BrowserArgs {
  import opened Wrappers
  import opened PyStr
  import Proxy

  /** The value of `kwargs.get("cdp_port")`, by Python type. */
  datatype KwValue = Absent | IntValue(i: int) | BoolValue(b: bool) | StrValue(s: string) | OtherValue

  /** `_get_cdp_port(kwargs)`: an `int` (a `bool` is one) is taken as it is,
      a `str` goes through `int()` and gives None when that raises; any
      other value, or none, gives None. */
  function GetCdpPort(v: KwValue): (r: Option<int>)
    ensures v.Absent? || v.OtherValue? ==> r.None?
    ensures v.IntValue? ==> r == Some(v.i)
    ensures v.BoolValue? ==> r == Some(if v.b then 1 else 0)
    ensures v.StrValue? ==> r == ParseInt(v.s)
  {
    match v
    case IntValue(i) => Some(i)
    case BoolValue(b) => Some(if b then 1 else 0)
    case StrValue(s) => ParseInt(s)
    case _ => None
  }

  /** A port passed as its decimal text is read as the same port as the
      number itself. */
  lemma CdpPortTextAgrees(port: int)
    ensures GetCdpPort(StrValue(IntToString(port))) == GetCdpPort(IntValue(port)) == Some(port)
  {
    ParseIntRoundTrip(port);
  }

  /** Text that is not a number is not a port. */
  lemma CdpPortRejectsWords()
    ensures GetCdpPort(StrValue("auto")) == None
  {
    assert Strip("auto") == "auto" by {
      NoSpaceStripped("auto");
    }
  }

  /** The flags every context is launched with. */
  function BaseFlags(): seq<string> {
    ["--disable-blink-features=AutomationControlled", "--disk-cache-size=1", "--start-maximized", "--kiosk-printing"]
  }

  const PortFlagPrefix: string := "--remote-debugging-port="

  /** `str(Path(base) / ext)`: an absolute `ext` replaces the base. The
      normalisation `pathlib` applies on top (collapsing "//", dropping
      "." parts and a trailing "/") is not modelled. */
  function JoinPath(base: string, ext: string): string {
    if ext != [] && ext[0] == '/' then ext
    else if base != [] && base[|base| - 1] == '/' then base + ext
    else base + "/" + ext
  }

  /** The extension directories, when extensions and their base directory
      are configured and the directory could be created. */
  function ExtensionPaths(extensions: seq<string>, basePath: Option<string>, dirCreated: bool): (r: seq<string>)
    ensures r != [] ==> |r| == |extensions| && basePath.Some? && dirCreated
    ensures extensions != [] && basePath.Some? && basePath.value != "" && dirCreated ==>
      |r| == |extensions| && forall i :: 0 <= i < |extensions| ==> r[i] == JoinPath(basePath.value, extensions[i])
  {
    if extensions != [] && basePath.Some? && basePath.value != "" && dirCreated
    then seq(|extensions|, i requires 0 <= i < |extensions| => JoinPath(basePath.value, extensions[i]))
    else []
  }

  /** The `args` list of `build_browser_args`. */
  function BrowserFlags(cdpPort: Option<int>, extensionPaths: seq<string>): (r: seq<string>)
    ensures |r| >= 4 && r[..4] == BaseFlags()
  {
    BaseFlags()
    + (if cdpPort.Some? && cdpPort.value != 0 then [PortFlagPrefix + IntToString(cdpPort.value)] else [])
    + ExtensionFlagList(extensionPaths)
  }

  /** The port a Chromium command line asks for: the first
      `--remote-debugging-port=` flag, read as an integer. */
  function FlagPort(flags: seq<string>): Option<int> {
    if flags == [] then None
    else if PortFlagPrefix <= flags[0] then ParseInt(flags[0][|PortFlagPrefix|..])
    else FlagPort(flags[1..])
  }

  lemma {:induction false} FlagPortSkips(pre: seq<string>, rest: seq<string>)
    requires forall i :: 0 <= i < |pre| ==> !(PortFlagPrefix <= pre[i])
    ensures FlagPort(pre + rest) == FlagPort(rest)
  {
    if pre != [] {
      assert (pre + rest)[0] == pre[0];
      assert (pre + rest)[1..] == pre[1..] + rest;
      FlagPortSkips(pre[1..], rest);
    } else {
      assert pre + rest == rest;
    }
  }

  lemma NotPortFlag(prefix: string, x: string)
    requires |prefix| >= 3 && prefix[2] != 'r'
    ensures !(PortFlagPrefix <= prefix + x)
  {
    assert (prefix + x)[2] == prefix[2];
  }

  lemma BaseFlagsAreNotPortFlags()
    ensures forall i :: 0 <= i < |BaseFlags()| ==> !(PortFlagPrefix <= BaseFlags()[i])
  {
    var b := BaseFlags();
    NotPortFlag(b[0], "");
    NotPortFlag(b[1], "");
    NotPortFlag(b[2], "");
    NotPortFlag(b[3], "");
    assert b[0] + "" == b[0] && b[1] + "" == b[1] && b[2] + "" == b[2] && b[3] + "" == b[3];
  }

  function ExtensionFlagList(extensionPaths: seq<string>): seq<string> {
    if extensionPaths != [] then
      var joined := Join(",", extensionPaths);
      ["--disable-extensions-except=" + joined, "--load-extension=" + joined]
    else []
  }

  lemma ExtensionFlagsHaveNoPort(extensionPaths: seq<string>)
    ensures FlagPort(ExtensionFlagList(extensionPaths)) == None
  {
    var e := ExtensionFlagList(extensionPaths);
    if e != [] {
      var joined := Join(",", extensionPaths);
      NotPortFlag("--disable-extensions-except=", joined);
      NotPortFlag("--load-extension=", joined);
      assert e[0] == "--disable-extensions-except=" + joined;
      assert e[1..] == ["--load-extension=" + joined];
      assert e[1..][0] == "--load-extension=" + joined;
      assert e[1..][1..] == [];
      assert FlagPort(e[1..]) == FlagPort(e[1..][1..]);
    }
  }

  lemma PortFlagParses(port: int, rest: seq<string>)
    ensures FlagPort([PortFlagPrefix + IntToString(port)] + rest) == Some(port)
  {
    var f := PortFlagPrefix + IntToString(port);
    assert ([f] + rest)[0] == f;
    assert f[|PortFlagPrefix|..] == IntToString(port);
    ParseIntRoundTrip(port);
  }

  /** The launched browser listens on exactly the requested port; a
      missing or zero port adds no flag. */
  lemma PortFlagRoundTrip(cdpPort: Option<int>, extensionPaths: seq<string>)
    ensures FlagPort(BrowserFlags(cdpPort, extensionPaths))
         == if cdpPort.Some? && cdpPort.value != 0 then cdpPort else None
  {
    var portPart := if cdpPort.Some? && cdpPort.value != 0 then [PortFlagPrefix + IntToString(cdpPort.value)] else [];
    var extPart := ExtensionFlagList(extensionPaths);
    assert BrowserFlags(cdpPort, extensionPaths) == BaseFlags() + (portPart + extPart);
    BaseFlagsAreNotPortFlags();
    FlagPortSkips(BaseFlags(), portPart + extPart);
    if portPart != [] {
      PortFlagParses(cdpPort.value, extPart);
    } else {
      assert portPart + extPart == extPart;
      ExtensionFlagsHaveNoPort(extensionPaths);
    }
  }

  /** Both extension flags name the same directories, in order. */
  lemma ExtensionFlags(cdpPort: Option<int>, extensionPaths: seq<string>)
    requires extensionPaths != []
    ensures var flags := BrowserFlags(cdpPort, extensionPaths);
      && flags[|flags| - 2] == "--disable-extensions-except=" + Join(",", extensionPaths)
      && flags[|flags| - 1] == "--load-extension=" + Join(",", extensionPaths)
  {
  }

  /** The launch options `build_browser_args` chooses; locale, viewport and
      the HAR and video paths come from settings and the clock and are not
      modelled. */
  datatype LaunchOptions = LaunchOptions(
    args: seq<string>, ignoreDefaultArgs: seq<string>, colorScheme: string, proxy: Option<Proxy.ProxyConfig>)

  /** `build_browser_args`: the flags, with the configured extensions
      under their base directory when it could be created, and a proxy from
      the pool when proxies are enabled and one is valid. */
  method BuildBrowserArgs(cdpPort: Option<int>, extensions: seq<string>, basePath: Option<string>, dirCreated: bool,
                          enableProxy: bool, pool: Option<string>, choice: nat)
    returns (r: LaunchOptions)
    ensures r.args == BrowserFlags(cdpPort, ExtensionPaths(extensions, basePath, dirCreated))
    ensures r.ignoreDefaultArgs == ["--enable-automation"] && r.colorScheme == "no-preference"
    ensures r.proxy.Some? <==> enableProxy && Proxy.ValidProxies(pool) != []
    ensures r.proxy.Some? ==> r.proxy.value.server in Proxy.ValidProxies(pool) && Proxy.IsValidProxyUrl(r.proxy.value.server)
  {
    var proxy: Option<Proxy.ProxyConfig> := None;
    if enableProxy {
      proxy := Proxy.SetupProxy(pool, choice);
    }
    var extensionPaths := ExtensionPaths(extensions, basePath, dirCreated);
    r := LaunchOptions(BrowserFlags(cdpPort, extensionPaths), ["--enable-automation"], "no-preference", proxy);
  }
}
