/** Proxy pool handling: `_is_valid_proxy_url`, `_get_proxy_server_creds`
    and `setup_proxy` (skyvern/webeye/browser_factory.py:326-380). */
module Proxy {
  import opened Wrappers
  import opened PyStr
  import opened Errors
  import opened Urls

  // ---------------------------------------------------------------------
  // PROXY_PATTERN = ^(http|https|socks5):\/\/([^:@]+(:[^@]*)?@)?[^\s:\/]+(:\d+)?$

  /** `[^\s:\/]` */
  predicate IsHostChar(c: char) { !IsSpace(c) && c != ':' && c != '/' }

  /** Length of the longest prefix made of host characters. */
  function HostEnd(t: string): (k: nat)
    ensures k <= |t|
    ensures forall i :: 0 <= i < k ==> IsHostChar(t[i])
    ensures k < |t| ==> !IsHostChar(t[k])
  {
    if t == [] || !IsHostChar(t[0]) then 0 else 1 + HostEnd(t[1..])
  }

  /** `[^\s:\/]+(:\d+)?` followed by the end of the text. A host cannot
      contain ':', so the port, if any, starts at the first character that
      is not a host character. */
  predicate HostAndPort(t: string) {
    var k := HostEnd(t);
    && k > 0
    && (k == |t| || (t[k] == ':' && k + 1 < |t| && AllDigits(t[k + 1..])))
  }

  /** `[^:@]+(:[^@]*)?`: a non-empty user name without ':' or '@', then
      optionally ':' and a password without '@'. */
  predicate UserInfoPattern(u: string) {
    u != [] && u[0] != ':' && '@' !in u
  }

  /** What follows "scheme://". Since the user information has no '@', an
      '@' that ends it is the first '@' of the text. */
  predicate AuthorityPattern(r: string) {
    || HostAndPort(r)
    || ('@' in r
        && UserInfoPattern(r[..IndexOf(r, '@')])
        && HostAndPort(r[IndexOf(r, '@') + 1..]))
  }

  predicate PatternBody(s: string) {
    || ("http://" <= s && AuthorityPattern(s[7..]))
    || ("https://" <= s && AuthorityPattern(s[8..]))
    || ("socks5://" <= s && AuthorityPattern(s[9..]))
  }

  /** `PROXY_PATTERN.match(url)`: `$` also matches just before a final
      newline. */
  predicate MatchesProxyPattern(url: string) {
    || PatternBody(url)
    || (url != [] && url[|url| - 1] == '\n' && PatternBody(url[..|url| - 1]))
  }

  /** `_is_valid_proxy_url(url)`: `urlparse` must succeed with a scheme and a
      network location, and the whole text must match the pattern. */
  function IsValidProxyUrl(url: string): (r: bool)
    ensures r ==> "http://" <= url || "https://" <= url || "socks5://" <= url
  {
    match UrlSplit(url)
    case None => false
    case Some(p) => p.scheme != "" && p.netloc != "" && MatchesProxyPattern(url)
  }

  // ---------------------------------------------------------------------
  // _get_proxy_server_creds

  datatype Creds = NoCreds | UserPass(username: string, password: string)

  /** `_get_proxy_server_creds(proxy)`: both user name and password when both
      are present and non-empty, otherwise the empty dict. `urlparse` may
      raise ValueError on unbalanced brackets. */
  function GetProxyServerCreds(proxy: string): (r: Result<Creds, Exc>)
    ensures r.Ok? && r.value.UserPass? ==> r.value.username != "" && r.value.password != ""
  {
    match UrlSplit(proxy)
    case None => Err(ValueError("Invalid IPv6 URL"))
    case Some(p) =>
      var c := CredentialsOf(p.netloc);
      if c.username.Some? && c.username.value != "" && c.password.Some? && c.password.value != ""
      then Ok(UserPass(c.username.value, c.password.value))
      else Ok(NoCreds)
  }

  /** A URL that passed the validity check never makes the credential
      lookup raise. */
  lemma ValidProxyHasCreds(url: string)
    requires IsValidProxyUrl(url)
    ensures GetProxyServerCreds(url).Ok?
  {
  }

  // ---------------------------------------------------------------------
  // setup_proxy

  datatype ProxyConfig = ProxyConfig(server: string, username: string, password: string)

  /** `[server.strip() for server in pool.split(",") if server.strip()]` */
  function PoolEntries(pool: string): (r: seq<string>)
    ensures forall i :: 0 <= i < |r| ==> r[i] != "" && Strip(r[i]) == r[i]
  {
    NonEmptyStripped(Split(pool, ','))
  }

  function NonEmptyStripped(parts: seq<string>): (r: seq<string>)
    ensures forall i :: 0 <= i < |r| ==> r[i] != "" && Strip(r[i]) == r[i]
  {
    if parts == [] then []
    else
      var s := Strip(parts[0]);
      StripIdempotent(parts[0]);
      (if s != "" then [s] else []) + NonEmptyStripped(parts[1..])
  }

  lemma StripIdempotent(s: string)
    ensures Strip(Strip(s)) == Strip(s)
  {
    var t := Strip(s);
    if t != [] {
      assert !IsSpace(t[0]) && !IsSpace(t[|t| - 1]);
    }
  }

  /** The entries of a list that pass `_is_valid_proxy_url`, in order. */
  function ValidOnly(entries: seq<string>): (r: seq<string>)
    ensures |r| <= |entries|
  {
    if entries == [] then []
    else
      var last := entries[|entries| - 1];
      var front := ValidOnly(entries[..|entries| - 1]);
      if IsValidProxyUrl(last) then front + [last] else front
  }

  /** Exactly the valid entries are kept. */
  lemma {:induction false} ValidOnlyMembers(entries: seq<string>, x: string)
    ensures x in ValidOnly(entries) <==> x in entries && IsValidProxyUrl(x)
  {
    if entries != [] {
      var front := entries[..|entries| - 1];
      ValidOnlyMembers(front, x);
      assert entries == front + [entries[|entries| - 1]];
    }
  }

  /** `valid_proxies` for a configured `HOSTED_PROXY_POOL`. */
  function ValidProxies(pool: Option<string>): seq<string> {
    if pool.None? || pool.value == "" || Strip(pool.value) == "" then []
    else ValidOnly(PoolEntries(pool.value))
  }

  /** The loop that collects `valid_proxies`. */
  method FilterValid(servers: seq<string>) returns (valid: seq<string>)
    ensures valid == ValidOnly(servers)
  {
    valid := [];
    var i := 0;
    while i < |servers|
      invariant 0 <= i <= |servers|
      invariant valid == ValidOnly(servers[..i])
    {
      if IsValidProxyUrl(servers[i]) {
        valid := valid + [servers[i]];
      }
      assert servers[..i + 1][..i] == servers[..i];
      i := i + 1;
    }
    assert servers[..i] == servers;
  }

  /** `setup_proxy()`. `random.choice` is the oracle `choice`: the proxy at
      position `choice % |valid_proxies|` is taken. */
  method SetupProxy(pool: Option<string>, choice: nat) returns (r: Option<ProxyConfig>)
    ensures r.None? <==> ValidProxies(pool) == []
    ensures r.Some? ==> var valid := ValidProxies(pool);
      && r.value.server == valid[choice % |valid|]
      && IsValidProxyUrl(r.value.server)
      && r.value.server in PoolEntries(pool.value)
    ensures r.Some? ==>
      match GetProxyServerCreds(r.value.server)
      case Ok(UserPass(u, p)) => r.value.username == u && r.value.password == p
      case _ => r.value.username == "" && r.value.password == ""
  {
    if pool.None? || pool.value == "" || Strip(pool.value) == "" {
      return None;
    }
    var servers := PoolEntries(pool.value);
    if servers == [] {
      return None;
    }
    var valid := FilterValid(servers);
    if valid == [] {
      return None;
    }
    var server := valid[choice % |valid|];
    ValidOnlyMembers(servers, server);
    ValidProxyHasCreds(server);
    match GetProxyServerCreds(server) {
      case Ok(UserPass(u, p)) => r := Some(ProxyConfig(server, u, p));
      case Ok(NoCreds) => r := Some(ProxyConfig(server, "", ""));
      case Err(_) => r := None;
    }
  }

  // ---------------------------------------------------------------------
  // Proxy URLs built from their parts

  /** A proxy URL `scheme://[user[:password]@]host[:port]`. */
  datatype ProxyParts = ProxyParts(
    scheme: string, user: Option<string>, password: Option<string>, host: string, port: Option<nat>)

  /** Characters that need no escaping anywhere in the authority. */
  predicate IsPlainChar(c: char) {
    c > ' ' && !IsSpace(c) && c != ':' && c != '@' && c != '/' && c != '?' && c != '#' && c != '[' && c != ']'
  }

  predicate AllPlain(s: string) { forall i :: 0 <= i < |s| ==> IsPlainChar(s[i]) }

  predicate WellFormedParts(p: ProxyParts) {
    && (p.scheme == "http" || p.scheme == "https" || p.scheme == "socks5")
    && p.host != "" && AllPlain(p.host)
    && (p.user.Some? ==> p.user.value != "" && AllPlain(p.user.value))
    && (p.password.Some? ==> p.user.Some? && AllPlain(p.password.value))
  }

  function UserPart(p: ProxyParts): string {
    if p.user.None? then ""
    else p.user.value + (if p.password.Some? then ":" + p.password.value else "")
  }

  function HostPart(p: ProxyParts): string {
    p.host + (if p.port.Some? then ":" + NatToString(p.port.value) else "")
  }

  function Authority(p: ProxyParts): string {
    (if p.user.Some? then UserPart(p) + "@" else "") + HostPart(p)
  }

  function RenderProxyUrl(p: ProxyParts): string {
    p.scheme + "://" + Authority(p)
  }

  /** The credentials the URL carries, as `_get_proxy_server_creds` should
      report them. */
  function PartsCreds(p: ProxyParts): Creds {
    if p.user.Some? && p.password.Some? && p.password.value != ""
    then UserPass(p.user.value, p.password.value) else NoCreds
  }

  /** Characters that keep a netloc intact: no delimiter, nothing
      `urlsplit` drops, no bracket. */
  predicate IsAuthorityChar(c: char) {
    !IsNetlocDelimiter(c) && !IsUnsafe(c) && c != '[' && c != ']'
  }

  predicate AllAuthority(s: string) { forall i :: 0 <= i < |s| ==> IsAuthorityChar(s[i]) }

  lemma AuthorityConcat(a: string, b: string)
    requires AllAuthority(a) && AllAuthority(b)
    ensures AllAuthority(a + b)
  {
    assert forall i :: 0 <= i < |a + b| ==> (a + b)[i] == if i < |a| then a[i] else b[i - |a|];
  }

  lemma NoBrackets(s: string)
    requires AllAuthority(s)
    ensures '[' !in s && ']' !in s
  {
  }

  lemma HostEndOfPlain(a: string, b: string)
    requires AllPlain(a) && (b != [] ==> b[0] == ':')
    ensures HostEnd(a + b) == |a|
  {
    if a != [] {
      assert (a + b)[1..] == a[1..] + b;
      HostEndOfPlain(a[1..], b);
    }
  }

  function PortPart(p: ProxyParts): string {
    if p.port.Some? then ":" + NatToString(p.port.value) else ""
  }

  lemma PortPartShape(p: ProxyParts)
    ensures AllAuthority(PortPart(p)) && '@' !in PortPart(p)
    ensures PortPart(p) != [] ==> PortPart(p)[0] == ':' && |PortPart(p)| > 1 && AllDigits(PortPart(p)[1..])
  {
    if p.port.Some? {
      assert PortPart(p)[1..] == NatToString(p.port.value);
    }
  }

  lemma HostPartShape(p: ProxyParts)
    requires WellFormedParts(p)
    ensures HostAndPort(HostPart(p))
    ensures AllAuthority(HostPart(p)) && '@' !in HostPart(p)
  {
    var q := PortPart(p);
    assert HostPart(p) == p.host + q;
    PortPartShape(p);
    HostEndOfPlain(p.host, q);
    AuthorityConcat(p.host, q);
    if q != [] {
      assert HostPart(p)[|p.host| + 1..] == q[1..];
    }
  }

  lemma UserPartShape(p: ProxyParts)
    requires WellFormedParts(p) && p.user.Some?
    ensures UserInfoPattern(UserPart(p))
    ensures AllAuthority(UserPart(p))
  {
    var u := UserPart(p);
    if p.password.Some? {
      var w := ":" + p.password.value;
      assert AllAuthority(w);
      AuthorityConcat(p.user.value, w);
      assert u == p.user.value + w;
    }
  }

  lemma AuthorityShape(p: ProxyParts)
    requires WellFormedParts(p)
    ensures AuthorityPattern(Authority(p))
    ensures AllAuthority(Authority(p))
  {
    HostPartShape(p);
    var a := Authority(p);
    if p.user.Some? {
      UserPartShape(p);
      var u := UserPart(p);
      assert a == u + "@" + HostPart(p);
      assert a[|u|] == '@' && a[..|u|] == u;
      IndexOfUnique(a, '@', |u|);
      assert a[|u| + 1..] == HostPart(p);
      AuthorityConcat(u, "@");
      AuthorityConcat(u + "@", HostPart(p));
    }
  }

  lemma NetlocEndAll(s: string)
    requires AllAuthority(s)
    ensures NetlocEnd(s) == |s|
  {
    if s != [] {
      NetlocEndAll(s[1..]);
    }
  }

  predicate NoUnsafe(s: string) { forall i :: 0 <= i < |s| ==> !IsUnsafe(s[i]) }

  lemma AuthorityHasNoUnsafe(s: string)
    requires AllAuthority(s)
    ensures NoUnsafe(s)
  {
  }

  lemma NoUnsafeConcat(a: string, b: string)
    requires NoUnsafe(a) && NoUnsafe(b)
    ensures NoUnsafe(a + b)
  {
    assert forall i :: 0 <= i < |a + b| ==> (a + b)[i] == if i < |a| then a[i] else b[i - |a|];
  }

  lemma RemoveUnsafeKeeps(s: string)
    requires NoUnsafe(s)
    ensures RemoveUnsafe(s) == s
  {
    if s != [] {
      RemoveUnsafeKeeps(s[1..]);
    }
  }

  /** The three accepted schemes: lower-case scheme characters, starting
      with a letter. */
  lemma SchemeChars(p: ProxyParts)
    requires WellFormedParts(p)
    ensures p.scheme != [] && IsAsciiAlpha(p.scheme[0]) && p.scheme[0] > ' '
    ensures forall i :: 0 <= i < |p.scheme| ==> IsSchemeChar(p.scheme[i]) && !('A' <= p.scheme[i] <= 'Z')
    ensures NoUnsafe(p.scheme + "://")
  {
    if p.scheme == "http" {
      assert p.scheme + "://" == "http://";
    } else if p.scheme == "https" {
      assert p.scheme + "://" == "https://";
    } else {
      assert p.scheme + "://" == "socks5://";
    }
  }

  lemma CleaningKeeps(url: string)
    requires url != [] && url[0] > ' ' && NoUnsafe(url)
    ensures RemoveUnsafe(LStripC0(url)) == url
  {
    RemoveUnsafeKeeps(url);
  }

  lemma SchemeOfJoined(scheme: string, rest: string)
    requires scheme != [] && IsAsciiAlpha(scheme[0])
    requires forall i :: 0 <= i < |scheme| ==> IsSchemeChar(scheme[i]) && !('A' <= scheme[i] <= 'Z')
    ensures SchemeOf(scheme + ":" + rest) == (scheme, rest)
  {
    var u := scheme + ":" + rest;
    assert u[..|scheme|] == scheme;
    assert forall j :: 0 <= j < |scheme| ==> u[j] == scheme[j];
    IndexOfUnique(u, ':', |scheme|);
    LowerCaseKept(scheme);
    assert u[|scheme| + 1..] == rest;
  }

  lemma SplitOfJoined(scheme: string, a: string)
    requires scheme != [] && IsAsciiAlpha(scheme[0])
    requires forall i :: 0 <= i < |scheme| ==> IsSchemeChar(scheme[i]) && !('A' <= scheme[i] <= 'Z')
    requires NoUnsafe(scheme + "://") && AllAuthority(a)
    ensures UrlSplit(scheme + "://" + a) == Some(SplitResult(scheme, a))
  {
    var url := scheme + "://" + a;
    AuthorityHasNoUnsafe(a);
    NoUnsafeConcat(scheme + "://", a);
    assert url[0] == scheme[0];
    CleaningKeeps(url);
    assert url == scheme + ":" + ("//" + a);
    SchemeOfJoined(scheme, "//" + a);
    assert ("//" + a)[..2] == "//";
    assert ("//" + a)[2..] == a;
    NetlocEndAll(a);
    NoBrackets(a);
    assert a[..|a|] == a;
  }

  /** `urlsplit` reads back the scheme and the authority of a rendered URL. */
  lemma RenderedSplit(p: ProxyParts)
    requires WellFormedParts(p)
    ensures UrlSplit(RenderProxyUrl(p)) == Some(SplitResult(p.scheme, Authority(p)))
  {
    AuthorityShape(p);
    SchemeChars(p);
    SplitOfJoined(p.scheme, Authority(p));
  }

  lemma RenderedMatches(p: ProxyParts)
    requires WellFormedParts(p)
    ensures PatternBody(RenderProxyUrl(p))
  {
    var url := RenderProxyUrl(p);
    AuthorityShape(p);
    assert url[|p.scheme| + 3..] == Authority(p);
    assert (p.scheme + "://") <= url;
  }

  /** Every well-formed proxy URL passes `_is_valid_proxy_url`. */
  lemma RenderedProxyIsValid(p: ProxyParts)
    requires WellFormedParts(p)
    ensures IsValidProxyUrl(RenderProxyUrl(p))
  {
    RenderedSplit(p);
    RenderedMatches(p);
  }

  lemma UserInfoOfAt(u: string, h: string)
    requires '@' !in h
    ensures UserInfo(u + "@" + h) == Some(u)
    decreases |h|
  {
    var n := u + "@" + h;
    if h == [] {
      assert n[..|n| - 1] == u;
    } else {
      assert n[..|n| - 1] == u + "@" + h[..|h| - 1];
      UserInfoOfAt(u, h[..|h| - 1]);
    }
  }

  lemma NoUserInfo(n: string)
    requires '@' !in n
    ensures UserInfo(n) == None
  {
  }

  lemma UserInfoCreds(p: ProxyParts)
    requires WellFormedParts(p) && p.user.Some?
    ensures CredentialsOf(Authority(p)) == Credentials(p.user, p.password)
  {
    HostPartShape(p);
    var a := Authority(p);
    var u := UserPart(p);
    assert a == u + "@" + HostPart(p);
    UserInfoOfAt(u, HostPart(p));
    var name := p.user.value;
    if p.password.Some? {
      assert u == name + ":" + p.password.value;
      assert u[|name|] == ':' && u[..|name|] == name;
      IndexOfUnique(u, ':', |name|);
      assert u[|name| + 1..] == p.password.value;
    } else {
      assert u == name;
    }
  }

  /** `_get_proxy_server_creds` returns exactly the user name and password
      written into the URL, when both are there and the password is
      non-empty. */
  lemma RenderedProxyCreds(p: ProxyParts)
    requires WellFormedParts(p)
    ensures GetProxyServerCreds(RenderProxyUrl(p)) == Ok(PartsCreds(p))
  {
    RenderedSplit(p);
    if p.user.Some? {
      UserInfoCreds(p);
    } else {
      HostPartShape(p);
      NoUserInfo(Authority(p));
    }
  }
}
