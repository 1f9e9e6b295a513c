/** Browser artifacts (skyvern/webeye/browser_factory.py:292-323), the
    console log file (browser_factory.py:48-63) and the
    video bookkeeping `BrowserState.set_working_page` does on them
    (browser_factory.py:1048-1076). */
module Artifacts {
  import opened Wrappers

  /** `VideoArtifact`; the recorded bytes are not modelled. */
  datatype VideoArtifact = VideoArtifact(videoPath: Option<string>, videoArtifactId: Option<string>)

  /** `VideoArtifact()` */
  function EmptyVideo(): (v: VideoArtifact)
    ensures v.videoPath.None? && v.videoArtifactId.None?
  {
    VideoArtifact(None, None)
  }

  datatype BrowserArtifacts = BrowserArtifacts(
    videoArtifacts: seq<VideoArtifact>,
    harPath: Option<string>,
    tracesDir: Option<string>,
    browserSessionDir: Option<string>,
    browserConsoleLogPath: Option<string>)

  /** `BrowserArtifacts()` */
  function DefaultArtifacts(): (a: BrowserArtifacts)
    ensures a.videoArtifacts == [] && a.browserConsoleLogPath.None?
  {
    BrowserArtifacts([], None, None, None, None)
  }

  /** `BrowserContextFactory.build_browser_artifacts`: a missing or empty
      video list becomes the empty list; the other fields are copied. */
  function BuildBrowserArtifacts(
    videoArtifacts: Option<seq<VideoArtifact>>, harPath: Option<string>, tracesDir: Option<string>,
    browserSessionDir: Option<string>, browserConsoleLogPath: Option<string>): (a: BrowserArtifacts)
    ensures videoArtifacts.Some? ==> a.videoArtifacts == videoArtifacts.value
    ensures videoArtifacts.None? ==> a.videoArtifacts == []
    ensures a.harPath == harPath && a.tracesDir == tracesDir
    ensures a.browserSessionDir == browserSessionDir && a.browserConsoleLogPath == browserConsoleLogPath
  {
    BrowserArtifacts(videoArtifacts.GetOr([]), harPath, tracesDir, browserSessionDir, browserConsoleLogPath)
  }

  // ---------------------------------------------------------------------
  // The console log file

  /** The files on disk, by path. */
  type Files = map<string, string>

  function FileContents(files: Files, path: string): string {
    if path in files then files[path] else ""
  }

  datatype AppendResult = AppendResult(written: nat, files: Files)

  /** `append_browser_console_log(msg)`: without a log path nothing is
      written and 0 is returned; otherwise the file (created when missing)
      gets `msg` at its end and the number of characters written is
      returned. The lock only serialises concurrent appends. */
  function AppendBrowserConsoleLog(a: BrowserArtifacts, files: Files, msg: string): (r: AppendResult)
    ensures a.browserConsoleLogPath.None? ==> r.written == 0 && r.files == files
    ensures a.browserConsoleLogPath.Some? ==>
      && r.written == |msg|
      && r.files.Keys == files.Keys + {a.browserConsoleLogPath.value}
      && (forall p :: p in files && p != a.browserConsoleLogPath.value ==> r.files[p] == files[p])
  {
    match a.browserConsoleLogPath
    case None => AppendResult(0, files)
    case Some(p) => AppendResult(|msg|, files[p := FileContents(files, p) + msg])
  }

  /** `read_browser_console_log()`: empty without a path or a file. */
  function ReadBrowserConsoleLog(a: BrowserArtifacts, files: Files): (r: string)
    ensures a.browserConsoleLogPath.None? ==> r == ""
  {
    match a.browserConsoleLogPath
    case None => ""
    case Some(p) => FileContents(files, p)
  }

  /** What is read back is what was there followed by the appended text. */
  lemma ReadAfterAppend(a: BrowserArtifacts, files: Files, msg: string)
    requires a.browserConsoleLogPath.Some?
    ensures ReadBrowserConsoleLog(a, AppendBrowserConsoleLog(a, files, msg).files)
         == ReadBrowserConsoleLog(a, files) + msg
  {
  }

  /** Two appends in a row leave the file as one append of both texts, in
      order. */
  lemma AppendsConcatenate(a: BrowserArtifacts, files: Files, m1: string, m2: string)
    ensures AppendBrowserConsoleLog(a, AppendBrowserConsoleLog(a, files, m1).files, m2).files
         == AppendBrowserConsoleLog(a, files, m1 + m2).files
  {
    if a.browserConsoleLogPath.Some? {
      var p := a.browserConsoleLogPath.value;
      assert FileContents(files, p) + m1 + m2 == FileContents(files, p) + (m1 + m2);
    }
  }

  /** The log state of one browser context: its artifacts, the files, and
      how many `console` handlers are registered on the context. */
  datatype LogSetup = LogSetup(artifacts: BrowserArtifacts, files: Files, consoleHandlers: nat)

  /** `set_browser_console_log`: artifacts without a log path get
      `freshPath` (the dated, random name the source builds) and an empty
      file there; when the file cannot be created (`created` false) the
      function returns before registering anything. Otherwise, whether or
      not a path was already set, one more `console` handler is registered
      on the context. */
  function SetBrowserConsoleLog(s: LogSetup, freshPath: string, created: bool): (r: LogSetup)
    ensures s.artifacts.browserConsoleLogPath.None? && !created ==> r == s
    ensures s.artifacts.browserConsoleLogPath.None? && created ==>
      && r.artifacts == s.artifacts.(browserConsoleLogPath := Some(freshPath))
      && r.files == s.files[freshPath := ""] && r.consoleHandlers == s.consoleHandlers + 1
    ensures s.artifacts.browserConsoleLogPath.Some? ==>
      r.artifacts == s.artifacts && r.files == s.files && r.consoleHandlers == s.consoleHandlers + 1
  {
    if s.artifacts.browserConsoleLogPath.None? then
      if created
      then LogSetup(s.artifacts.(browserConsoleLogPath := Some(freshPath)), s.files[freshPath := ""], s.consoleHandlers + 1)
      else s
    else s.(consoleHandlers := s.consoleHandlers + 1)
  }

  /** One console message: each of the first `n` registered handlers, in
      registration order, appends its own rendering of it; `lineOf(i)` is
      the line handler `i` writes (the renderings differ at most in the
      timestamp taken). */
  function DispatchConsole(a: BrowserArtifacts, files: Files, n: nat, lineOf: nat -> string): Files
    decreases n
  {
    if n == 0 then files
    else AppendBrowserConsoleLog(a, DispatchConsole(a, files, n - 1, lineOf), lineOf(n - 1)).files
  }

  /** The lines of the first `n` handlers, in order. */
  function Lines(n: nat, lineOf: nat -> string): string
    decreases n
  {
    if n == 0 then "" else Lines(n - 1, lineOf) + lineOf(n - 1)
  }

  /** With a log path, a console message leaves the log with every
      registered handler's line appended. */
  lemma {:induction false} DispatchAppendsEveryHandler(a: BrowserArtifacts, files: Files, n: nat, lineOf: nat -> string)
    requires a.browserConsoleLogPath.Some?
    ensures ReadBrowserConsoleLog(a, DispatchConsole(a, files, n, lineOf))
         == ReadBrowserConsoleLog(a, files) + Lines(n, lineOf)
    decreases n
  {
    if n > 0 {
      var before := DispatchConsole(a, files, n - 1, lineOf);
      DispatchAppendsEveryHandler(a, files, n - 1, lineOf);
      ReadAfterAppend(a, before, lineOf(n - 1));
      assert ReadBrowserConsoleLog(a, files) + Lines(n - 1, lineOf) + lineOf(n - 1)
          == ReadBrowserConsoleLog(a, files) + Lines(n, lineOf);
    }
  }

  /** A second set-up on artifacts that already have a log path (as the
      AdsPower and local Chrome creators and then the factory do) keeps the
      path and the files, and registers a second handler. */
  lemma SetConsoleLogTwice(s: LogSetup, p1: string, c1: bool, p2: string, c2: bool)
    ensures var first := SetBrowserConsoleLog(s, p1, c1);
      var second := SetBrowserConsoleLog(first, p2, c2);
      first.artifacts.browserConsoleLogPath.Some? ==>
        && second.artifacts == first.artifacts && second.files == first.files
        && second.consoleHandlers == first.consoleHandlers + 1
  {
  }

  /** A single set-up on a fresh context logs each console message once. */
  lemma ConsoleLinesWrittenOnce(a: BrowserArtifacts, files: Files, freshPath: string, lineOf: nat -> string)
    requires a.browserConsoleLogPath.None?
    ensures var s := SetBrowserConsoleLog(LogSetup(a, files, 0), freshPath, true);
      && s.consoleHandlers == 1
      && ReadBrowserConsoleLog(s.artifacts, DispatchConsole(s.artifacts, s.files, s.consoleHandlers, lineOf)) == lineOf(0)
  {
    var s := SetBrowserConsoleLog(LogSetup(a, files, 0), freshPath, true);
    DispatchAppendsEveryHandler(s.artifacts, s.files, 1, lineOf);
  }

  /** The creator's set-up followed by the factory's: the context has two
      handlers, and a single console message is written to the fresh log
      twice. */
  lemma ConsoleLinesWrittenTwice(a: BrowserArtifacts, files: Files, freshPath: string, p2: string, c2: bool,
                                 lineOf: nat -> string)
    requires a.browserConsoleLogPath.None?
    ensures var s1 := SetBrowserConsoleLog(LogSetup(a, files, 0), freshPath, true);
      var s2 := SetBrowserConsoleLog(s1, p2, c2);
      && s2.consoleHandlers == 2
      && ReadBrowserConsoleLog(s2.artifacts, DispatchConsole(s2.artifacts, s2.files, s2.consoleHandlers, lineOf))
         == lineOf(0) + lineOf(1)
  {
    var s1 := SetBrowserConsoleLog(LogSetup(a, files, 0), freshPath, true);
    var s2 := SetBrowserConsoleLog(s1, p2, c2);
    assert s2.artifacts.browserConsoleLogPath == Some(freshPath) && s2.files == files[freshPath := ""];
    DispatchAppendsEveryHandler(s2.artifacts, s2.files, 2, lineOf);
    assert Lines(2, lineOf) == lineOf(0) + lineOf(1);
  }

  /** Once installed, the log holds exactly the lines appended since. */
  lemma FreshLogHoldsAppendedLines(a: BrowserArtifacts, files: Files, freshPath: string, m1: string, m2: string)
    requires a.browserConsoleLogPath.None?
    ensures var s := SetBrowserConsoleLog(LogSetup(a, files, 0), freshPath, true);
      var f1 := AppendBrowserConsoleLog(s.artifacts, s.files, m1).files;
      ReadBrowserConsoleLog(s.artifacts, AppendBrowserConsoleLog(s.artifacts, f1, m2).files) == m1 + m2
  {
    var s := SetBrowserConsoleLog(LogSetup(a, files, 0), freshPath, true);
    AppendsConcatenate(s.artifacts, s.files, m1, m2);
    ReadAfterAppend(s.artifacts, s.files, m1 + m2);
  }

  /** The dated, random log file name `set_browser_console_log` builds,
      and whether creating that file succeeded. */
  datatype NewLog = NewLog(path: string, created: bool)

  /** The caller's artifacts after `set_browser_console_log`, which sets
      the log path on the object it is given: a path already there is
      kept, otherwise the fresh one is recorded when its file could be
      created; nothing else changes. */
  function WithConsoleLog(a: BrowserArtifacts, log: NewLog): (r: BrowserArtifacts)
    ensures r.browserConsoleLogPath ==
      if a.browserConsoleLogPath.Some? then a.browserConsoleLogPath
      else if log.created then Some(log.path) else None
    ensures r.(browserConsoleLogPath := a.browserConsoleLogPath) == a
  {
    SetBrowserConsoleLog(LogSetup(a, map[], 0), log.path, log.created).artifacts
  }

  /** What the set-up does to the artifacts does not depend on the files
      or on the handlers already registered. */
  lemma WithConsoleLogAgrees(s: LogSetup, log: NewLog)
    ensures SetBrowserConsoleLog(s, log.path, log.created).artifacts == WithConsoleLog(s.artifacts, log)
  {
  }

  /** Two set-ups in a row (a creator's, then the factory's): a path the
      first one recorded is kept; when the first could not create its
      file, the second one's outcome decides. */
  lemma WithConsoleLogTwice(a: BrowserArtifacts, first: NewLog, second: NewLog)
    ensures WithConsoleLog(a, first).browserConsoleLogPath.Some? ==>
      WithConsoleLog(WithConsoleLog(a, first), second) == WithConsoleLog(a, first)
    ensures a.browserConsoleLogPath.None? && !first.created ==>
      WithConsoleLog(WithConsoleLog(a, first), second) == WithConsoleLog(a, second)
  {
  }

  // ---------------------------------------------------------------------
  // Video paths recorded per page index (set_working_page)

  /** What `await page.video.path()` gives under the action timeout. */
  datatype VideoLookup = NoVideo | VideoAt(path: string) | LookupTimedOut | LookupFailed

  function LookedUpPath(lookup: VideoLookup): (r: Option<string>)
    ensures r.Some? <==> lookup.VideoAt?
  {
    if lookup.VideoAt? then Some(lookup.path) else None
  }

  /** Sets the path of one entry when the lookup found one. */
  function SetPath(v: VideoArtifact, lookup: VideoLookup): VideoArtifact {
    if lookup.VideoAt? then v.(videoPath := Some(lookup.path)) else v
  }

  /** The video list after `set_working_page(page, index)`: an entry that
      already has a path is left alone; an existing entry without one gets
      the page's video path; when the list is too short it is padded with
      fresh empty entries up to `index` and the last one gets the path. */
  function RecordVideo(videos: seq<VideoArtifact>, index: nat, lookup: VideoLookup): (r: seq<VideoArtifact>)
    ensures |r| == if index < |videos| then |videos| else index + 1
    ensures forall i :: 0 <= i < |r| && i != index ==>
      r[i] == if i < |videos| then videos[i] else EmptyVideo()
    ensures index < |videos| && videos[index].videoPath.Some? ==> r[index] == videos[index]
    ensures index < |videos| && videos[index].videoPath.None? ==> r[index] == SetPath(videos[index], lookup)
    ensures index >= |videos| ==> r[index] == SetPath(EmptyVideo(), lookup)
  {
    if index < |videos| then
      if videos[index].videoPath.None? then videos[index := SetPath(videos[index], lookup)] else videos
    else
      videos + seq(index - |videos|, _ => EmptyVideo()) + [SetPath(EmptyVideo(), lookup)]
  }

  /** A recorded path is never overwritten or lost, and artifact ids are
      never touched. */
  lemma RecordVideoKeepsPaths(videos: seq<VideoArtifact>, index: nat, lookup: VideoLookup, i: nat)
    requires i < |videos|
    ensures i < |RecordVideo(videos, index, lookup)|
    ensures videos[i].videoPath.Some? ==> RecordVideo(videos, index, lookup)[i] == videos[i]
    ensures RecordVideo(videos, index, lookup)[i].videoArtifactId == videos[i].videoArtifactId
  {
  }

  /** Recording the same page at the same index twice changes nothing more. */
  lemma RecordVideoIdempotent(videos: seq<VideoArtifact>, index: nat, lookup: VideoLookup)
    ensures RecordVideo(RecordVideo(videos, index, lookup), index, lookup) == RecordVideo(videos, index, lookup)
  {
    var r := RecordVideo(videos, index, lookup);
    var r2 := RecordVideo(r, index, lookup);
    if lookup.VideoAt? {
      assert r[index].videoPath.Some?;
      assert r2 == r;
    } else {
      assert r[index].videoPath.None? ==> SetPath(r[index], lookup) == r[index];
      assert r2 == r;
    }
  }

  /** The page's video is findable at its index after recording, unless an
      earlier path was already there. */
  lemma RecordVideoFindsPage(videos: seq<VideoArtifact>, index: nat, path: string)
    requires index >= |videos| || videos[index].videoPath.None?
    ensures RecordVideo(videos, index, VideoAt(path))[index].videoPath == Some(path)
  {
  }

  // ---------------------------------------------------------------------
  // The padding as written: `[VideoArtifact()] * n` repeats one object

  /** Video entries as references into a store of objects, so that two
      entries can be the same object. */
  datatype VideoHeap = VideoHeap(refs: seq<nat>, store: map<nat, VideoArtifact>, next: nat)

  predicate HeapValid(h: VideoHeap) {
    && (forall i :: 0 <= i < |h.refs| ==> h.refs[i] in h.store)
    && (forall k :: k in h.store ==> k < h.next)
  }

  /** What the list looks like through its references. */
  function HeapView(h: VideoHeap): (r: seq<VideoArtifact>)
    requires HeapValid(h)
    ensures |r| == |h.refs|
    ensures forall i :: 0 <= i < |r| ==> r[i] == h.store[h.refs[i]]
  {
    seq(|h.refs|, i requires 0 <= i < |h.refs| => h.store[h.refs[i]])
  }

  /** `set_working_page` as written: the padding allocates ONE object and
      repeats its reference, then sets the path through the entry at
      `index`, which is that same object. */
  function RecordVideoAsWritten(h: VideoHeap, index: nat, lookup: VideoLookup): (r: VideoHeap)
    requires HeapValid(h)
    ensures HeapValid(r)
    ensures index < |r.refs|
  {
    if index < |h.refs| then
      var v := h.store[h.refs[index]];
      if v.videoPath.None? then h.(store := h.store[h.refs[index] := SetPath(v, lookup)]) else h
    else
      var o := h.next;
      var refs := h.refs + seq(index + 1 - |h.refs|, _ => o);
      var store := h.store[o := SetPath(EmptyVideo(), lookup)];
      VideoHeap(refs, store, o + 1)
  }

  /** Starting from no videos, recording page index 2 writes its path into
      entries 0 and 1 as well, which stand for pages without a recorded
      video. The corrected `RecordVideo` keeps them empty. */
  lemma PaddingSharesOneObject()
    ensures var h := RecordVideoAsWritten(VideoHeap([], map[], 0), 2, VideoAt("v.webm"));
      HeapView(h)[0].videoPath == Some("v.webm") && HeapView(h)[1].videoPath == Some("v.webm")
    ensures RecordVideo([], 2, VideoAt("v.webm"))[0].videoPath.None?
    ensures RecordVideo([], 2, VideoAt("v.webm"))[1].videoPath.None?
  {
    var h := RecordVideoAsWritten(VideoHeap([], map[], 0), 2, VideoAt("v.webm"));
    assert h.refs == [0, 0, 0];
  }
}
