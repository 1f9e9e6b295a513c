/** The two listeners a new browser context gets: the console log line
    (skyvern/webeye/browser_factory.py:64-68) and the download listener that
    adds a missing file extension (browser_factory.py:77-127). */
module Listeners {
  import opened Wrappers
  import opened PyStr

  // ---------------------------------------------------------------------
  // Console log lines

  /** A `datetime.now()` reading. */
  datatype DateTime = DateTime(year: nat, month: nat, day: nat, hour: nat, minute: nat, second: nat, microsecond: nat)

  predicate ValidDateTime(t: DateTime) {
    && 1 <= t.year <= 9999 && 1 <= t.month <= 12 && 1 <= t.day <= 31
    && t.hour < 24 && t.minute < 60 && t.second < 60 && t.microsecond < 1000000
  }

  function Pow10(w: nat): (r: nat)
    ensures r >= 1
  {
    if w == 0 then 1 else 10 * Pow10(w - 1)
  }

  /** The `w` last decimal digits of `n`, zero padded. */
  function PadDigits(n: nat, w: nat): (r: string)
    ensures |r| == w && AllDigits(r)
  {
    if w == 0 then "" else PadDigits(n / 10, w - 1) + [DigitChar(n % 10)]
  }

  lemma {:induction false} PadDigitsValue(n: nat, w: nat)
    requires n < Pow10(w)
    ensures DigitsValue(PadDigits(n, w)) == n
  {
    if w > 0 {
      var s := PadDigits(n, w);
      assert s[..w - 1] == PadDigits(n / 10, w - 1);
      PadDigitsValue(n / 10, w - 1);
      DigitRoundTrip(n % 10);
    }
  }

  /** The "%Y-%m-%d" half of the timestamp. */
  function DatePart(t: DateTime): (r: string)
    ensures |r| == 10 && r[4] == '-' && r[7] == '-'
    ensures r[0..4] == PadDigits(t.year, 4) && r[5..7] == PadDigits(t.month, 2) && r[8..10] == PadDigits(t.day, 2)
  {
    var y, m := PadDigits(t.year, 4), PadDigits(t.month, 2);
    var r := y + "-" + m + "-" + PadDigits(t.day, 2);
    assert r[0..4] == y && r[5..7] == m;
    r
  }

  /** The "%H:%M:%S.%f" half of the timestamp. */
  function ClockPart(t: DateTime): (r: string)
    ensures |r| == 15 && r[2] == ':' && r[5] == ':' && r[8] == '.'
    ensures r[0..2] == PadDigits(t.hour, 2) && r[3..5] == PadDigits(t.minute, 2)
    ensures r[6..8] == PadDigits(t.second, 2) && r[9..15] == PadDigits(t.microsecond, 6)
  {
    var h, m, sec := PadDigits(t.hour, 2), PadDigits(t.minute, 2), PadDigits(t.second, 2);
    var r := h + ":" + m + ":" + sec + "." + PadDigits(t.microsecond, 6);
    assert r[0..2] == h && r[3..5] == m && r[6..8] == sec;
    r
  }

  /** `strftime("%Y-%m-%dT%H:%M:%S.%fZ")`: 27 characters. */
  function Timestamp(t: DateTime): (r: string)
    ensures |r| == 27
  {
    DatePart(t) + "T" + ClockPart(t) + "Z"
  }

  /** Reads a timestamp back. */
  function ParseTimestamp(s: string): Option<DateTime> {
    if |s| == 27 && s[4] == '-' && s[7] == '-' && s[10] == 'T' && s[13] == ':' && s[16] == ':'
       && s[19] == '.' && s[26] == 'Z'
       && AllDigits(s[0..4]) && AllDigits(s[5..7]) && AllDigits(s[8..10]) && AllDigits(s[11..13])
       && AllDigits(s[14..16]) && AllDigits(s[17..19]) && AllDigits(s[20..26])
    then Some(DateTime(DigitsValue(s[0..4]), DigitsValue(s[5..7]), DigitsValue(s[8..10]),
                       DigitsValue(s[11..13]), DigitsValue(s[14..16]), DigitsValue(s[17..19]),
                       DigitsValue(s[20..26])))
    else None
  }

  lemma TimestampPieces(t: DateTime)
    ensures var s := Timestamp(t);
      && s[0..4] == PadDigits(t.year, 4) && s[5..7] == PadDigits(t.month, 2)
      && s[8..10] == PadDigits(t.day, 2) && s[11..13] == PadDigits(t.hour, 2)
      && s[14..16] == PadDigits(t.minute, 2) && s[17..19] == PadDigits(t.second, 2)
      && s[20..26] == PadDigits(t.microsecond, 6)
      && s[4] == '-' && s[7] == '-' && s[10] == 'T' && s[13] == ':' && s[16] == ':'
      && s[19] == '.' && s[26] == 'Z'
  {
    var s, d, c := Timestamp(t), DatePart(t), ClockPart(t);
    assert s[0..10] == d && s[11..26] == c;
    assert s[0..4] == d[0..4] && s[5..7] == d[5..7] && s[8..10] == d[8..10];
    assert s[11..13] == c[0..2] && s[14..16] == c[3..5] && s[17..19] == c[6..8] && s[20..26] == c[9..15];
  }

  lemma Pow10Widths()
    ensures Pow10(2) == 100 && Pow10(4) == 10000 && Pow10(6) == 1000000
  {
  }

  /** A zero-padded field reads back as its value. */
  lemma FieldRoundTrip(piece: string, n: nat, w: nat)
    requires n < Pow10(w) && piece == PadDigits(n, w)
    ensures AllDigits(piece) && DigitsValue(piece) == n
  {
    PadDigitsValue(n, w);
  }

  /** Every valid reading is recovered from its timestamp. */
  lemma TimestampRoundTrip(t: DateTime)
    requires ValidDateTime(t)
    ensures ParseTimestamp(Timestamp(t)) == Some(t)
  {
    var s := Timestamp(t);
    TimestampPieces(t);
    Pow10Widths();
    FieldRoundTrip(s[0..4], t.year, 4);
    FieldRoundTrip(s[5..7], t.month, 2);
    FieldRoundTrip(s[8..10], t.day, 2);
    FieldRoundTrip(s[11..13], t.hour, 2);
    FieldRoundTrip(s[14..16], t.minute, 2);
    FieldRoundTrip(s[17..19], t.second, 2);
    FieldRoundTrip(s[20..26], t.microsecond, 6);
  }

  /** `" ".join(f"{key}={value}" ...)` over `msg.location`, with the values
      already rendered by `str`. */
  function KeyValues(location: seq<(string, string)>): (r: string)
    ensures location == [] ==> r == ""
  {
    Join(" ", seq(|location|, i requires 0 <= i < |location| => location[i].0 + "=" + location[i].1))
  }

  /** The line `browser_console_log` appends for one console message. */
  function ConsoleLine(now: DateTime, msgType: string, text: string, location: seq<(string, string)>): (r: string)
    ensures |r| >= 31
    ensures r[..27] == Timestamp(now) && r[27] == '['
    ensures r[|r| - 1] == '\n'
  {
    Timestamp(now) + "[" + msgType + "]" + text + " " + KeyValues(location) + "\n"
  }

  datatype ConsoleEntry = ConsoleEntry(time: DateTime, msgType: string, body: string)

  /** Splits a line back into time, message type and the rest without the
      final newline. */
  function ParseConsoleLine(line: string): Option<ConsoleEntry> {
    if |line| >= 30 && line[27] == '[' && line[|line| - 1] == '\n' && ']' in line[28..|line| - 1] then
      match ParseTimestamp(line[..27])
      case None => None
      case Some(t) =>
        var inner := line[28..|line| - 1];
        var k := IndexOf(inner, ']');
        Some(ConsoleEntry(t, inner[..k], inner[k + 1..]))
    else None
  }

  /** A line made of a 27-character stamp, '[', a body holding ']' and a
      newline is split at the body's first ']'. */
  lemma ConsoleLineShape(stamp: string, inner: string)
    requires |stamp| == 27 && ']' in inner
    ensures ParseConsoleLine(stamp + "[" + inner + "\n")
         == match ParseTimestamp(stamp)
            case None => None
            case Some(t) => Some(ConsoleEntry(t, inner[..IndexOf(inner, ']')], inner[IndexOf(inner, ']') + 1..]))
  {
    var line := stamp + "[" + inner + "\n";
    assert line[..27] == stamp && line[27] == '[' && line[|line| - 1] == '\n';
    assert line[28..|line| - 1] == inner;
  }

  /** A console line gives back its time, its message type (when that has
      no ']') and the text followed by a space and the location pairs. */
  lemma ConsoleLineRoundTrip(now: DateTime, msgType: string, text: string, location: seq<(string, string)>)
    requires ValidDateTime(now) && ']' !in msgType
    ensures ParseConsoleLine(ConsoleLine(now, msgType, text, location))
         == Some(ConsoleEntry(now, msgType, text + " " + KeyValues(location)))
  {
    var rest := text + " " + KeyValues(location);
    var inner := msgType + "]" + rest;
    assert ConsoleLine(now, msgType, text, location) == Timestamp(now) + "[" + inner + "\n";
    assert inner[|msgType|] == ']' && inner[..|msgType|] == msgType;
    IndexOfUnique(inner, ']', |msgType|);
    assert inner[|msgType| + 1..] == rest;
    TimestampRoundTrip(now);
    ConsoleLineShape(Timestamp(now), inner);
  }

  // ---------------------------------------------------------------------
  // Download file extensions (pathlib.PurePosixPath)

  /** The components PurePosixPath drops: empty and "." parts. */
  predicate IsDroppedPart(p: string) { p == "" || p == "." }

  /** The text after the last '/'. */
  function AfterLastSlash(s: string): (r: string)
    ensures |r| <= |s| && '/' !in r
  {
    if s == [] || s[|s| - 1] == '/' then []
    else
      var r := AfterLastSlash(s[..|s| - 1]) + [s[|s| - 1]];
      r
  }

  /** `Path(s).name`: the last component that is not dropped. */
  function Name(s: string): (r: string)
    ensures '/' !in r
    decreases |s|
  {
    var c := AfterLastSlash(s);
    if !IsDroppedPart(c) then c
    else if |c| < |s| then Name(s[..|s| - |c| - 1])
    else ""
  }

  lemma {:induction false} AfterLastSlashAppend(a: string, b: string)
    requires '/' !in b
    ensures AfterLastSlash(a + b) == AfterLastSlash(a) + b
    decreases |b|
  {
    if b == [] {
      assert a + b == a;
    } else {
      var b' := b[..|b| - 1];
      var c := b[|b| - 1];
      assert c != '/';
      var ab := a + b;
      assert ab[|ab| - 1] == c;
      assert ab[..|ab| - 1] == a + b';
      assert AfterLastSlash(ab) == AfterLastSlash(a + b') + [c];
      AfterLastSlashAppend(a, b');
      assert b == b' + [c];
    }
  }

  /** `Path(s).suffix`: from the last '.' of the name, when that is neither
      its first nor its last character. */
  function Suffix(s: string): (r: string)
    ensures r != "" ==> |r| >= 2 && r[0] == '.' && '/' !in r && '.' !in r[1..]
  {
    NameSuffix(Name(s))
  }

  function LastDot(n: string): (r: Option<nat>)
    ensures r.Some? ==> r.value < |n| && n[r.value] == '.' && '.' !in n[r.value + 1..]
    ensures r.None? ==> '.' !in n
  {
    if n == [] then None
    else if n[|n| - 1] == '.' then Some(|n| - 1)
    else
      match LastDot(n[..|n| - 1])
      case None => None
      case Some(i) =>
        assert n[i + 1..] == n[..|n| - 1][i + 1..] + [n[|n| - 1]];
        Some(i)
  }

  function NameSuffix(n: string): (r: string)
    requires '/' !in n
    ensures r != "" ==> |r| >= 2 && r[0] == '.' && '/' !in r && '.' !in r[1..]
  {
    match LastDot(n)
    case Some(i) =>
      if 0 < i < |n| - 1 then
        assert n[i..][1..] == n[i + 1..];
        n[i..]
      else ""
    case None => ""
  }

  /** What `await download.path()` gives under the download timeout. */
  datatype DownloadOutcome = Saved(path: string) | DownloadTimedOut | DownloadFailed

  datatype DownloadAction = KeepAsIs | RenameTo(newPath: string) | CancelDownload | Abandon

  /** `listen_to_download`: a file with an extension is kept; otherwise the
      extension of the suggested file name, else that of the download URL,
      is appended; a timeout cancels the download. */
  function OnDownload(outcome: DownloadOutcome, suggestedFilename: string, url: string): (r: DownloadAction)
    ensures r.RenameTo? ==>
      && outcome.Saved? && Suffix(outcome.path) == ""
      && ((r.newPath == outcome.path + Suffix(suggestedFilename) && Suffix(suggestedFilename) != "")
          || (r.newPath == outcome.path + Suffix(url) && Suffix(url) != "" && Suffix(suggestedFilename) == ""))
    ensures r.CancelDownload? <==> outcome.DownloadTimedOut?
  {
    match outcome
    case DownloadTimedOut => CancelDownload
    case DownloadFailed => Abandon
    case Saved(p) =>
      if Suffix(p) != "" then KeepAsIs
      else if Suffix(suggestedFilename) != "" then RenameTo(p + Suffix(suggestedFilename))
      else if Suffix(url) != "" then RenameTo(p + Suffix(url))
      else KeepAsIs
  }

  /** The file name the rename produces has the appended extension, so the
      listener would keep it as it is: renaming is never repeated. */
  lemma RenamedFileKeepsItsSuffix(path: string, suffix: string)
    requires !IsDroppedPart(AfterLastSlash(path))
    requires |suffix| >= 2 && suffix[0] == '.' && '/' !in suffix && '.' !in suffix[1..]
    ensures Suffix(path + suffix) == suffix
  {
    var last := AfterLastSlash(path);
    AfterLastSlashAppend(path, suffix);
    var n := last + suffix;
    assert |n| >= 2;
    assert Name(path + suffix) == n;
    LastDotOfSuffixed(last, suffix);
  }

  lemma LastDotOfSuffixed(last: string, suffix: string)
    requires last != "" && '/' !in last
    requires |suffix| >= 2 && suffix[0] == '.' && '/' !in suffix && '.' !in suffix[1..]
    ensures LastDot(last + suffix) == Some(|last|)
    ensures NameSuffix(last + suffix) == suffix
    decreases |suffix|
  {
    var n := last + suffix;
    if |suffix| == 1 {
      assert false;
    } else if |suffix| == 2 {
      assert n[..|n| - 1] == last + ".";
      assert LastDot(last + ".") == Some(|last|);
    } else {
      var shorter := suffix[..|suffix| - 1];
      assert n[..|n| - 1] == last + shorter;
      assert shorter[1..] == suffix[1..][..|suffix| - 2];
      LastDotOfSuffixed(last, shorter);
      assert n[|n| - 1] == suffix[|suffix| - 1] && suffix[|suffix| - 1] == suffix[1..][|suffix| - 2];
    }
    assert n[|last|..] == suffix;
  }

  /** A renamed download is kept as it is the next time it is seen. */
  lemma DownloadRenamedOnce(path: string, suggestedFilename: string, url: string)
    requires !IsDroppedPart(AfterLastSlash(path))
    requires OnDownload(Saved(path), suggestedFilename, url).RenameTo?
    ensures OnDownload(Saved(OnDownload(Saved(path), suggestedFilename, url).newPath), suggestedFilename, url) == KeepAsIs
  {
    var suffix := if Suffix(suggestedFilename) != "" then Suffix(suggestedFilename) else Suffix(url);
    RenamedFileKeepsItsSuffix(path, suffix);
  }

  /** `set_download_file_listener` registers one more `page` handler on
      each call, and each of them adds its own `download` listener to every
      new page. Every listener asks `download.path()`, which keeps giving
      the path the file was saved under, and renames the file from there;
      `present` is the set of paths that exist. A rename of a path that is
      gone raises, and the listener's generic handler swallows the error. */
  function RunDownloadListeners(n: nat, present: set<string>, path: string, suggestedFilename: string, url: string): (r: set<string>)
    decreases n
  {
    if n == 0 then present
    else
      var before := RunDownloadListeners(n - 1, present, path, suggestedFilename, url);
      match OnDownload(Saved(path), suggestedFilename, url)
      case RenameTo(newPath) => if path in before then (before - {path}) + {newPath} else before
      case _ => before
  }

  /** However many times the listener was installed (the creators and then
      the factory install it), a download is renamed at most once: the
      later listeners find the saved path gone. */
  lemma {:induction false} DownloadListenersRenameOnce(n: nat, present: set<string>, path: string,
                                                       suggestedFilename: string, url: string)
    requires n >= 1
    ensures RunDownloadListeners(n, present, path, suggestedFilename, url)
         == RunDownloadListeners(1, present, path, suggestedFilename, url)
    decreases n
  {
    if n > 1 {
      DownloadListenersRenameOnce(n - 1, present, path, suggestedFilename, url);
      var once := RunDownloadListeners(1, present, path, suggestedFilename, url);
      assert RunDownloadListeners(0, present, path, suggestedFilename, url) == present;
      var action := OnDownload(Saved(path), suggestedFilename, url);
      if action.RenameTo? {
        assert |action.newPath| > |path|;
        assert path !in once;
      }
    }
  }

  lemma NoSuffixExample()
    ensures Suffix("/tmp/dl/1a2b") == ""
  {
    assert "/tmp/dl/1a2b" == "/tmp/dl/" + "1a2b";
    AfterLastSlashAppend("/tmp/dl/", "1a2b");
    assert AfterLastSlash("/tmp/dl/") == "";
    assert LastDot("1a2b") == None;
  }

  lemma PdfSuffixExample()
    ensures Suffix("report.pdf") == ".pdf"
  {
    AfterLastSlashAppend("", "report.pdf");
    assert "" + "report.pdf" == "report.pdf";
    assert "report.pdf" == "report" + ".pdf";
    LastDotOfSuffixed("report", ".pdf");
  }

  /** The extension comes from the suggested name first. */
  lemma DownloadExample()
    ensures OnDownload(Saved("/tmp/dl/1a2b"), "report.pdf", "https://example.com/get") == RenameTo("/tmp/dl/1a2b.pdf")
  {
    NoSuffixExample();
    PdfSuffixExample();
    assert "/tmp/dl/1a2b" + ".pdf" == "/tmp/dl/1a2b.pdf";
  }
}
