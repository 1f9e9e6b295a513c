/** The part of CPython's `urllib.parse.urlsplit`/`urlparse` that the proxy
    checks read: the scheme, the network location and the user name and
    password inside it. */
module Urls {
  import opened Wrappers
  import opened PyStr

  /** `_WHATWG_C0_CONTROL_OR_SPACE`: U+0000 to U+0020, stripped from the
      front of the URL. */
  predicate IsC0ControlOrSpace(c: char) { c <= ' ' }

  /** `_UNSAFE_URL_BYTES_TO_REMOVE`: tab, carriage return and newline are
      deleted everywhere in the URL. */
  predicate IsUnsafe(c: char) { c == '\t' || c == '\r' || c == '\n' }

  predicate IsSchemeChar(c: char) {
    IsAsciiAlpha(c) || IsDigit(c) || c == '+' || c == '-' || c == '.'
  }

  /** The characters that end the network location. */
  predicate IsNetlocDelimiter(c: char) { c == '/' || c == '?' || c == '#' }

  function LStripC0(s: string): (r: string)
    ensures |r| <= |s| && r == s[|s| - |r|..]
    ensures r != [] ==> !IsC0ControlOrSpace(r[0])
  {
    if s != [] && IsC0ControlOrSpace(s[0]) then LStripC0(s[1..]) else s
  }

  function RemoveUnsafe(s: string): (r: string)
    ensures |r| <= |s|
    ensures forall i :: 0 <= i < |r| ==> !IsUnsafe(r[i])
  {
    if s == [] then []
    else (if IsUnsafe(s[0]) then [] else [s[0]]) + RemoveUnsafe(s[1..])
  }

  function ToLowerAscii(s: string): (r: string)
    ensures |r| == |s|
  {
    if s == [] then []
    else [if 'A' <= s[0] <= 'Z' then (s[0] as int + 32) as char else s[0]] + ToLowerAscii(s[1..])
  }

  lemma LowerCaseKept(s: string)
    requires forall i :: 0 <= i < |s| ==> !('A' <= s[i] <= 'Z')
    ensures ToLowerAscii(s) == s
  {
    if s != [] {
      LowerCaseKept(s[1..]);
    }
  }

  /** Length of the longest prefix of `s` without a netloc delimiter. */
  function NetlocEnd(s: string): (k: nat)
    ensures k <= |s|
    ensures forall i :: 0 <= i < k ==> !IsNetlocDelimiter(s[i])
    ensures k < |s| ==> IsNetlocDelimiter(s[k])
  {
    if s == [] || IsNetlocDelimiter(s[0]) then 0 else 1 + NetlocEnd(s[1..])
  }

  datatype SplitResult = SplitResult(scheme: string, netloc: string)

  /** Scheme and netloc of `urlsplit(url)`; None where it raises
      `ValueError("Invalid IPv6 URL")` (a netloc with '[' but no ']', or the
      reverse). */
  function UrlSplit(url: string): (r: Option<SplitResult>)
    ensures r.Some? ==> ('[' in r.value.netloc <==> ']' in r.value.netloc)
  {
    var u := RemoveUnsafe(LStripC0(url));
    var (scheme, rest) := SchemeOf(u);
    if |rest| >= 2 && rest[..2] == "//" then
      var body := rest[2..];
      var netloc := body[..NetlocEnd(body)];
      if ('[' in netloc) != (']' in netloc) then None
      else Some(SplitResult(scheme, netloc))
    else Some(SplitResult(scheme, ""))
  }

  /** The scheme is the text before the first ':' when it starts with an
      ASCII letter and has only scheme characters; it is lower-cased. */
  function SchemeOf(u: string): (string, string) {
    if ':' in u then
      var i := IndexOf(u, ':');
      if i > 0 && IsAsciiAlpha(u[0]) && (forall j :: 0 <= j < i ==> IsSchemeChar(u[j]))
      then (ToLowerAscii(u[..i]), u[i + 1..])
      else ("", u)
    else ("", u)
  }

  /** `netloc.rpartition('@')[0]` when there is an '@'. */
  function UserInfo(netloc: string): Option<string> {
    if '@' !in netloc then None
    else if netloc[|netloc| - 1] == '@' then Some(netloc[..|netloc| - 1])
    else UserInfo(netloc[..|netloc| - 1])
  }

  /** `urlparse(url).username` and `.password`: the user information split
      at its first ':'; the password is None without a ':'. */
  datatype Credentials = Credentials(username: Option<string>, password: Option<string>)

  function CredentialsOf(netloc: string): Credentials {
    match UserInfo(netloc)
    case None => Credentials(None, None)
    case Some(info) =>
      if ':' in info then
        var k := IndexOf(info, ':');
        Credentials(Some(info[..k]), Some(info[k + 1..]))
      else Credentials(Some(info), None)
  }
}
