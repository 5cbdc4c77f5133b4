/** The device client's file operations: the REST requests that create disk
    images, and the FTP operations (list, upload, download, mkdir, delete,
    delete directory, rename). Every FTP operation opens its own session,
    performs its steps until the first one that fails, and quits the
    session on every path once it was dialed. */
module FtpApi {
  import opened TextUtil
  import GoPath
  import opened Remote

  /** The control-API client: only its base URL matters to this layer. */
  datatype Client = Client(baseUrl: string)

  // ---------------------------------------------------------------------
  // REST requests built by the disk-image operations

  datatype Verb = Get | Put

  /** A request handed to the HTTP client (which is not part of this model). */
  datatype Request = Request(verb: Verb, endpoint: string, params: map<string, string>)

  /** The optional `diskname` parameter shared by all image kinds. */
  function DiskNameParam(diskName: string): (m: map<string, string>)
    ensures ("diskname" in m) <==> diskName != ""
    ensures "diskname" in m ==> m["diskname"] == diskName
    ensures m.Keys <= {"diskname"}
  {
    if diskName != "" then map["diskname" := diskName] else map[]
  }

  /** `FilesCreateD64`: `tracks` only when positive, `diskname` only when
      non-empty, and nothing else. */
  function FilesCreateD64(path: string, tracks: int, diskName: string): (r: Request)
    ensures r.verb == Put && r.endpoint == "/v1/files/" + path + ":create_d64"
    ensures ("tracks" in r.params) <==> tracks > 0
    ensures "tracks" in r.params ==> Atoi(r.params["tracks"]) == Some(tracks)
    ensures ("diskname" in r.params) <==> diskName != ""
    ensures "diskname" in r.params ==> r.params["diskname"] == diskName
    ensures r.params.Keys <= {"tracks", "diskname"}
  {
    ItoaRoundTrip(tracks);
    var base := if tracks > 0 then map["tracks" := Itoa(tracks)] else map[];
    Request(Put, "/v1/files/" + path + ":create_d64", base + DiskNameParam(diskName))
  }

  /** `FilesCreateD71`: a fixed 70-track image; only `diskname` may be sent. */
  function FilesCreateD71(path: string, diskName: string): (r: Request)
    ensures r.verb == Put && r.endpoint == "/v1/files/" + path + ":create_d71"
    ensures r.params == DiskNameParam(diskName)
  {
    Request(Put, "/v1/files/" + path + ":create_d71", DiskNameParam(diskName))
  }

  /** `FilesCreateD81`: a fixed 160-track image; only `diskname` may be sent. */
  function FilesCreateD81(path: string, diskName: string): (r: Request)
    ensures r.verb == Put && r.endpoint == "/v1/files/" + path + ":create_d81"
    ensures r.params == DiskNameParam(diskName)
  {
    Request(Put, "/v1/files/" + path + ":create_d81", DiskNameParam(diskName))
  }

  /** `FilesCreateDNP`: `tracks` is always sent, whatever its value. */
  function FilesCreateDNP(path: string, tracks: int, diskName: string): (r: Request)
    ensures r.verb == Put && r.endpoint == "/v1/files/" + path + ":create_dnp"
    ensures "tracks" in r.params && Atoi(r.params["tracks"]) == Some(tracks)
    ensures ("diskname" in r.params) <==> diskName != ""
    ensures "diskname" in r.params ==> r.params["diskname"] == diskName
    ensures r.params.Keys <= {"tracks", "diskname"}
  {
    ItoaRoundTrip(tracks);
    Request(Put, "/v1/files/" + path + ":create_dnp", map["tracks" := Itoa(tracks)] + DiskNameParam(diskName))
  }

  // ---------------------------------------------------------------------
  // The FTP endpoint

  /** The base URL without a leading "http://" and then "https://". */
  function WithoutScheme(baseUrl: string): string
  {
    GoPath.TrimPrefix(GoPath.TrimPrefix(baseUrl, "http://"), "https://")
  }

  /** The FTP host: the scheme-less base URL cut at its first ':' when
      that ':' is not the first character. */
  function FtpHost(baseUrl: string): string
  {
    var h := WithoutScheme(baseUrl);
    var idx := GoPath.FirstIndex(h, ':');
    if idx < |h| && idx > 0 then h[..idx] else h
  }

  /** The host is a prefix of the scheme-less URL: all of it when the URL
      has no ':' or starts with one, otherwise everything before the first. */
  lemma FtpHostSpec(baseUrl: string)
    ensures var h, host := WithoutScheme(baseUrl), FtpHost(baseUrl);
            && IsPrefix(host, h)
            && (h != [] && h[0] == ':' ==> host == h)
            && (h == [] || h[0] != ':' ==> ':' !in host && (host == h || h[|host|] == ':'))
  {
  }

  /** The dialled address: the host with the fixed FTP port 21. */
  function FtpAddress(baseUrl: string): string
  {
    FtpHost(baseUrl) + ":21"
  }

  /** Whatever port the control API listens on, and whether it is reached
      over http or https, the FTP session goes to port 21 of the same host. */
  lemma FtpAddressIgnoresPort(host: string, port: string, secure: bool)
    requires host != "" && ':' !in host
    requires forall i :: 0 <= i < |port| ==> IsDigit(port[i])
    ensures FtpAddress((if secure then "https://" else "http://") + host + ":" + port) == host + ":21"
    ensures FtpAddress((if secure then "https://" else "http://") + host) == host + ":21"
  {
    var scheme := if secure then "https://" else "http://";
    var h := host + ":" + port;
    assert scheme + host + ":" + port == scheme + h;
    NotSchemed(host, port);
    SchemeRemoved(secure, h);
    SchemeRemoved(secure, host);
    FirstColon(host, port);
    assert h[..|host|] == host;
    HostBeforeColon(scheme + h, h, host);
    HostBeforeColon(scheme + host, host, host);
  }

  /** A scheme-less URL whose first ':' ends `host` has that host. */
  lemma HostBeforeColon(url: string, h: string, host: string)
    requires WithoutScheme(url) == h
    requires 0 < |host| <= |h| && GoPath.FirstIndex(h, ':') == |host| && h[..|host|] == host
    ensures FtpAddress(url) == host + ":21"
  {
    if |host| == |h| {
      assert h == h[..|host|];
    }
  }

  /** Trimming the schemes removes exactly the one in front. */
  lemma SchemeRemoved(secure: bool, rest: string)
    requires !IsPrefix("https://", rest)
    ensures WithoutScheme((if secure then "https://" else "http://") + rest) == rest
  {
    var s := (if secure then "https://" else "http://") + rest;
    if secure {
      assert s[..7][4] == 's';
      assert s[8..] == rest;
    } else {
      assert s[7..] == rest;
    }
  }

  /** The first ':' after a host without one is the one after the host. */
  lemma FirstColon(host: string, port: string)
    requires ':' !in host
    ensures GoPath.FirstIndex(host + ":" + port, ':') == |host|
    ensures GoPath.FirstIndex(host, ':') == |host|
  {
    var h := host + ":" + port;
    assert h[|host|] == ':';
    forall i | 0 <= i < |host| ensures h[i] != ':' { assert h[i] == host[i]; }
  }

  /** A host without ':' (followed by a decimal port) never starts with a scheme. */
  lemma NotSchemed(host: string, port: string)
    requires host != "" && ':' !in host
    requires forall i :: 0 <= i < |port| ==> IsDigit(port[i])
    ensures !IsPrefix("https://", host + ":" + port) && !IsPrefix("https://", host)
  {
    var h := host + ":" + port;
    var scheme := "https://";
    if |h| >= 8 {
      if |host| > 5 {
        assert h[..8][5] == host[5] != scheme[5];
      } else if |host| < 5 {
        assert h[..8][|host|] == ':' != scheme[|host|];
      } else {
        assert h[..8][6] == port[0] != scheme[6];
      }
    }
    if |host| >= 8 {
      assert host[..8][5] != scheme[5];
    }
  }

  const Anonymous: string := "anonymous"

  // ---------------------------------------------------------------------
  // The shape of one operation's session, read off its trace segment

  predicate IsControl(a: Act)
  {
    a.Dial? || a.Login? || a.Quit?
  }

  /** A segment that dials `addr`; when the dial worked, logs in
      anonymously; when the login failed, quits at once; otherwise runs a
      body of requests and local steps and quits exactly once, at the end. */
  ghost predicate Scoped(seg: seq<Event>, addr: string)
  {
    || (|seg| == 1 && seg[0].act == Act.Dial(addr) && seg[0].outcome.Fail?)
    || (&& |seg| == 3 && seg[0] == Event(Act.Dial(addr), Ok)
        && seg[1].act == Act.Login(Anonymous, Anonymous) && seg[1].outcome.Fail?
        && seg[2] == Event(Act.Quit, Ok))
    || (&& |seg| >= 3 && seg[0] == Event(Act.Dial(addr), Ok)
        && seg[1] == Event(Act.Login(Anonymous, Anonymous), Ok)
        && seg[|seg| - 1] == Event(Act.Quit, Ok)
        && forall i :: 2 <= i < |seg| - 1 ==> !IsControl(seg[i].act))
  }

  ghost predicate LoggedIn(seg: seq<Event>)
  {
    |seg| >= 3 && seg[0].outcome.Ok? && seg[1].outcome.Ok?
  }

  /** What ran between login and quit. */
  ghost function Body(seg: seq<Event>): seq<Event>
  {
    if LoggedIn(seg) then seg[2..|seg| - 1] else []
  }

  /** The error `getFTPConn` reports for a session that never got past login. */
  ghost function ConnError(seg: seq<Event>): string
    requires |seg| >= 1
  {
    if seg[0].outcome.Fail? then "FTP dial failed: " + seg[0].outcome.message
    else if |seg| >= 2 && seg[1].outcome.Fail? then "FTP login failed: " + seg[1].outcome.message
    else ""
  }

  /** `events` performed the steps `acts` in order and stopped after the
      first one that failed (or after the last). */
  ghost predicate RunsUntilFailure(events: seq<Event>, acts: seq<Act>)
  {
    && 0 < |events| <= |acts|
    && Acts(events) == acts[..|events|]
    && (forall i :: 0 <= i < |events| - 1 ==> events[i].outcome.Ok?)
    && (|events| < |acts| ==> events[|events| - 1].outcome.Fail?)
  }

  /** The error of a run: the failed step's message, with that step's
      context in front. */
  ghost function StepError(events: seq<Event>, contexts: seq<string>): Option<string>
    requires |events| <= |contexts|
  {
    if |events| > 0 && events[|events| - 1].outcome.Fail? then
      Some(contexts[|events| - 1] + ": " + events[|events| - 1].outcome.message)
    else None
  }

  /** A whole single-session operation: its session shape, its steps until
      the first failure, and the error it returns. */
  ghost predicate SessionRun(seg: seq<Event>, addr: string, acts: seq<Act>, contexts: seq<string>, err: Option<string>)
    requires |acts| == |contexts|
  {
    && Scoped(seg, addr)
    && (LoggedIn(seg) ==> RunsUntilFailure(Body(seg), acts))
    && err == (if LoggedIn(seg) then StepError(Body(seg), contexts) else Some(ConnError(seg)))
  }

  function Wrap(context: string, err: Option<string>): Option<string>
  {
    if err.None? then None else Some(context + ": " + err.value)
  }

  /** A session that was dialed is quit, and quit last, on every path. */
  lemma QuitOnEveryPath(seg: seq<Event>, addr: string)
    requires Scoped(seg, addr)
    ensures seg[0].outcome.Ok? ==> seg[|seg| - 1] == Event(Act.Quit, Ok)
    ensures forall i :: 0 <= i < |seg| - 1 ==> seg[i].act != Act.Quit
    ensures LoggedIn(seg) <==> seg[0].outcome.Ok? && seg[1].outcome.Ok?
    ensures !LoggedIn(seg) ==> Body(seg) == [] && ConnError(seg) != ""
  {
  }

  /** `getFTPConn`: dial the derived address, log in anonymously, and on a
      rejected login quit the half-open connection and hand back nothing. */
  method GetFtpConn(c: Client, w: World) returns (s: Session?, err: Option<string>, ghost seg: seq<Event>)
    modifies w
    ensures w.trace == old(w.trace) + seg
    ensures (s != null) <==> err.None?
    ensures s != null ==> && fresh(s) && s.w == w && s.state == SessionState.Authenticated
                          && seg == [Event(Act.Dial(FtpAddress(c.baseUrl)), Ok),
                                     Event(Act.Login(Anonymous, Anonymous), Ok)]
    ensures s == null ==> Scoped(seg, FtpAddress(c.baseUrl)) && !LoggedIn(seg) && err == Some(ConnError(seg))
    ensures w.remote == old(w.remote) && w.local == old(w.local) && w.calls == old(w.calls)
  {
    var addr := FtpAddress(c.baseUrl);
    var conn := new Session(w);
    var e := conn.Dial(addr);
    if e.Some? {
      seg := [Event(Act.Dial(addr), Fail(e.value))];
      return null, Some("FTP dial failed: " + e.value), seg;
    }
    e := conn.Login(Anonymous, Anonymous);
    if e.Some? {
      conn.Quit();
      seg := [Event(Act.Dial(addr), Ok), Event(Act.Login(Anonymous, Anonymous), Fail(e.value)), Event(Act.Quit, Ok)];
      return null, Some("FTP login failed: " + e.value), seg;
    }
    seg := [Event(Act.Dial(addr), Ok), Event(Act.Login(Anonymous, Anonymous), Ok)];
    s, err := conn, None;
  }

  /** Closes an authenticated segment: the session quits after `body`. */
  lemma CloseSession(open: seq<Event>, body: seq<Event>, addr: string)
    requires open == [Event(Act.Dial(addr), Ok), Event(Act.Login(Anonymous, Anonymous), Ok)]
    requires forall i :: 0 <= i < |body| ==> !IsControl(body[i].act)
    ensures var seg := open + body + [Event(Act.Quit, Ok)];
            Scoped(seg, addr) && LoggedIn(seg) && Body(seg) == body
  {
    var seg := open + body + [Event(Act.Quit, Ok)];
    assert seg[2..|seg| - 1] == body;
  }

  /** The trace of a whole session, regrouped as one segment. */
  lemma Regroup(t0: seq<Event>, open: seq<Event>, body: seq<Event>, last: Event)
    ensures t0 + open + body + [last] == t0 + (open + body + [last])
  {
  }

  /** An operation whose session never got past login fails with the
      connection error, whatever its steps would have been. */
  lemma NoSession(seg: seq<Event>, addr: string, acts: seq<Act>, contexts: seq<string>, err: Option<string>)
    requires |acts| == |contexts|
    requires Scoped(seg, addr) && !LoggedIn(seg) && err == Some(ConnError(seg))
    ensures SessionRun(seg, addr, acts, contexts, err)
  {
  }

  /** Logging in, running `body` and quitting makes a whole run. */
  lemma FinishRun(open: seq<Event>, body: seq<Event>, addr: string, acts: seq<Act>, contexts: seq<string>, err: Option<string>)
    requires open == [Event(Act.Dial(addr), Ok), Event(Act.Login(Anonymous, Anonymous), Ok)]
    requires |acts| == |contexts|
    requires forall i :: 0 <= i < |acts| ==> !IsControl(acts[i])
    requires RunsUntilFailure(body, acts) && err == StepError(body, contexts)
    ensures SessionRun(open + body + [Event(Act.Quit, Ok)], addr, acts, contexts, err)
    ensures LoggedIn(open + body + [Event(Act.Quit, Ok)]) && Body(open + body + [Event(Act.Quit, Ok)]) == body
  {
    forall i | 0 <= i < |body| ensures !IsControl(body[i].act) {
      assert body[i].act == Acts(body)[i] == acts[i];
    }
    CloseSession(open, body, addr);
  }

  /** A one-step run and its error. */
  lemma OneStep(a: Act, e: Option<string>, context: string)
    ensures RunsUntilFailure([Event(a, OutcomeOf(e))], [a])
    ensures StepError([Event(a, OutcomeOf(e))], [context]) == Wrap(context, e)
  {
    assert Acts([Event(a, OutcomeOf(e))]) == [a];
  }

  // ---------------------------------------------------------------------
  // Listing

  /** `FileEntry`: `kind` is the Go field `Type`, "dir" or "file". */
  datatype FileEntry = FileEntry(name: string, size: nat, isDir: bool, kind: string)

  /** The loop of `FTPList`: one entry per server entry, in server order;
      a directory exactly when the server said folder (a link is a file). */
  method EntriesFromListing(entries: seq<RawEntry>) returns (result: seq<FileEntry>)
    ensures |result| == |entries|
    ensures forall i :: 0 <= i < |entries| ==>
              && result[i].name == entries[i].name
              && result[i].size == entries[i].size
              && (result[i].isDir <==> entries[i].kind == KindFolder)
              && (result[i].kind == "dir" <==> result[i].isDir)
              && (result[i].kind == "file" <==> !result[i].isDir)
  {
    result := [];
    for i := 0 to |entries|
      invariant |result| == i
      invariant forall j :: 0 <= j < i ==>
                  && result[j].name == entries[j].name
                  && result[j].size == entries[j].size
                  && (result[j].isDir <==> entries[j].kind == KindFolder)
                  && result[j].kind == (if result[j].isDir then "dir" else "file")
    {
      var entry := entries[i];
      var fileEntry := FileEntry(entry.name, entry.size, entry.kind == KindFolder, "");
      if fileEntry.isDir {
        fileEntry := fileEntry.(kind := "dir");
      } else {
        fileEntry := fileEntry.(kind := "file");
      }
      result := result + [fileEntry];
    }
  }

  /** `entries` is what `FTPList` makes of a listing of directory `p`:
      one entry per child, in the server's order. */
  ghost predicate EntriesOf(t: Tree, p: Path, entries: seq<FileEntry>)
  {
    exists raw: seq<RawEntry>, order: seq<Path> ::
      && IsListing(t, p, raw, order) && |entries| == |raw|
      && forall i :: 0 <= i < |raw| ==>
           && entries[i].name == raw[i].name && entries[i].size == raw[i].size
           && (entries[i].isDir <==> raw[i].kind == KindFolder)
           && entries[i].kind == (if entries[i].isDir then "dir" else "file")
  }

  /** `FTPList(path)`. */
  method FtpList(c: Client, w: World, path: Path) returns (entries: seq<FileEntry>, err: Option<string>, ghost seg: seq<Event>)
    modifies w
    ensures w.trace == old(w.trace) + seg
    ensures SessionRun(seg, FtpAddress(c.baseUrl), [ListDir(path)], ["failed to list directory"], err)
    ensures err.Some? ==> entries == []
    ensures err.None? ==> IsDir(w.remote, path)
    ensures err.None? ==> EntriesOf(w.remote, path, entries)
    ensures w.remote == old(w.remote) && w.local == old(w.local)
    ensures w.calls == old(w.calls) + [Call(ListOp(path), err)]
  {
    var conn: Session?;
    ghost var open: seq<Event>;
    conn, err, open := GetFtpConn(c, w);
    entries := [];
    if conn == null {
      seg := open;
      NoSession(seg, FtpAddress(c.baseUrl), [ListDir(path)], ["failed to list directory"], err);
      w.calls := w.calls + [Call(ListOp(path), err)];
      return;
    }
    var raw, e, order := conn.List(path);
    ghost var body := [Event(ListDir(path), OutcomeOf(e))];
    if e.Some? {
      err := Wrap("failed to list directory", e);
    } else {
      entries := EntriesFromListing(raw);
    }
    conn.Quit();
    seg := open + body + [Event(Act.Quit, Ok)];
    Regroup(old(w.trace), open, body, Event(Act.Quit, Ok));
    OneStep(ListDir(path), e, "failed to list directory");
    FinishRun(open, body, FtpAddress(c.baseUrl), [ListDir(path)], ["failed to list directory"], err);
    w.calls := w.calls + [Call(ListOp(path), err)];
  }

  // ---------------------------------------------------------------------
  // Recursive directory creation

  /** The non-empty elements of `parts`, in order. */
  function NonEmpty(parts: seq<string>): (r: seq<string>)
    ensures |r| <= |parts|
    ensures forall k :: 0 <= k < |r| ==> r[k] != ""
  {
    if parts == [] then []
    else if parts[|parts| - 1] == "" then NonEmpty(parts[..|parts| - 1])
    else NonEmpty(parts[..|parts| - 1]) + [parts[|parts| - 1]]
  }

  /** The value of `current` in `ftpMkdirAll` after walking `parts`. */
  function Current(parts: seq<string>): string
  {
    if parts == [] then ""
    else if parts[|parts| - 1] == "" then Current(parts[..|parts| - 1])
    else GoPath.Join2(Current(parts[..|parts| - 1]), parts[|parts| - 1])
  }

  /** The directories `ftpMkdirAll` asks for while walking `parts`. */
  function Targets(parts: seq<string>): seq<Path>
  {
    if parts == [] then []
    else if parts[|parts| - 1] == "" then Targets(parts[..|parts| - 1])
    else Targets(parts[..|parts| - 1]) + ["/" + Current(parts)]
  }

  /** The elements `ftpMkdirAll` splits `path` into. */
  function Parts(path: Path): seq<string>
  {
    GoPath.Split(GoPath.TrimPrefix(path, "/"))
  }

  /** What `ftpMkdirAll(conn, path)` asks the server to create, in order. */
  function MkdirAllTargets(path: Path): seq<Path>
  {
    Targets(Parts(path))
  }

  /** `events` are one `MakeDir` request per element of `dirs`, in order. */
  ghost predicate MakesDirs(events: seq<Event>, dirs: seq<Path>)
  {
    |events| == |dirs| && forall j :: 0 <= j < |dirs| ==> events[j].act == Act.MakeDir(dirs[j])
  }

  /** One request per non-empty element of the path. */
  lemma {:induction false} TargetsCount(parts: seq<string>)
    ensures |Targets(parts)| == |NonEmpty(parts)|
  {
    if parts != [] {
      TargetsCount(parts[..|parts| - 1]);
    }
  }

  /** No element is "." or ".." (nor holds a separator). */
  predicate PlainParts(parts: seq<string>)
  {
    forall k :: 0 <= k < |parts| ==> '/' !in parts[k] && parts[k] != "." && parts[k] != ".."
  }

  /** Without "." and ".." elements, `current` is the non-empty elements
      joined by "/". */
  lemma {:induction false} CurrentIsJoin(parts: seq<string>)
    requires PlainParts(parts)
    ensures NonEmpty(parts) == [] ==> Current(parts) == ""
    ensures NonEmpty(parts) != [] ==> Current(parts) == GoPath.JoinSlash(NonEmpty(parts))
  {
    if parts != [] {
      var front, last := parts[..|parts| - 1], parts[|parts| - 1];
      CurrentIsJoin(front);
      if last != "" {
        var segs := NonEmpty(front);
        assert NonEmpty(parts) == segs + [last];
        assert GoPath.PlainSegment(last);
        if segs == [] {
          GoPath.CleanPlainRelative([last]);
          assert Current(parts) == GoPath.Clean(last);
        } else {
          GoPath.JoinSnoc(segs, last);
          forall k | 0 <= k < |segs + [last]| ensures GoPath.PlainSegment((segs + [last])[k]) {
            if k < |segs| { NonEmptyFrom(front, k); }
          }
          GoPath.CleanPlainRelative(segs + [last]);
        }
      }
    }
  }

  /** Without "." and ".." elements, the k-th request names "/" followed by
      the first k+1 non-empty elements joined by "/". */
  lemma {:induction false} TargetsArePrefixes(parts: seq<string>)
    requires PlainParts(parts)
    ensures |Targets(parts)| == |NonEmpty(parts)|
    ensures forall k :: 0 <= k < |Targets(parts)| ==>
              Targets(parts)[k] == "/" + GoPath.JoinSlash(NonEmpty(parts)[..k + 1])
  {
    TargetsCount(parts);
    if parts != [] {
      var front, last := parts[..|parts| - 1], parts[|parts| - 1];
      TargetsArePrefixes(front);
      var segs, targets := NonEmpty(front), Targets(front);
      if last == "" {
        assert NonEmpty(parts) == segs && Targets(parts) == targets;
      } else {
        assert NonEmpty(parts) == segs + [last];
        assert Targets(parts) == targets + ["/" + Current(parts)];
        CurrentIsJoin(parts);
        PrefixesSnoc(targets, segs, last);
      }
    }
  }

  /** Adding one element extends the list of prefix paths by the whole path. */
  lemma PrefixesSnoc(targets: seq<Path>, segs: seq<string>, last: string)
    requires |targets| == |segs|
    requires forall k :: 0 <= k < |targets| ==> targets[k] == "/" + GoPath.JoinSlash(segs[..k + 1])
    ensures var all, more := segs + [last], targets + ["/" + GoPath.JoinSlash(segs + [last])];
            forall k :: 0 <= k < |more| ==> more[k] == "/" + GoPath.JoinSlash(all[..k + 1])
  {
    var all, more := segs + [last], targets + ["/" + GoPath.JoinSlash(segs + [last])];
    forall k | 0 <= k < |more| ensures more[k] == "/" + GoPath.JoinSlash(all[..k + 1]) {
      if k < |targets| {
        assert all[..k + 1] == segs[..k + 1];
      } else {
        assert all[..k + 1] == all;
      }
    }
  }

  lemma {:induction false} NonEmptyFrom(parts: seq<string>, k: nat)
    requires k < |NonEmpty(parts)|
    ensures NonEmpty(parts)[k] in parts
  {
    var front := parts[..|parts| - 1];
    if k < |NonEmpty(front)| {
      NonEmptyFrom(front, k);
    }
  }

  /** `after` keeps every entry of `before` and adds only directories
      named in `dirs`. */
  ghost predicate Grows(before: Tree, after: Tree, dirs: seq<Path>)
  {
    && (forall k :: k in before ==> k in after && after[k] == before[k])
    && (forall k :: k in after && k !in before ==> after[k] == Folder && k in dirs)
  }

  lemma GrowsStep(a: Tree, b: Tree, c: Tree, dirs: seq<Path>, p: Path)
    requires Grows(a, b, dirs)
    requires c == b || (p !in b && c == b[p := Folder])
    ensures Grows(a, c, dirs + [p])
  {
  }

  lemma MakesDirsSnoc(mk: seq<Event>, dirs: seq<Path>, ev: Event, d: Path)
    requires MakesDirs(mk, dirs) && ev.act == Act.MakeDir(d)
    ensures MakesDirs(mk + [ev], dirs + [d])
  {
  }

  lemma AppendOne(t0: seq<Event>, mk: seq<Event>, ev: Event)
    ensures t0 + mk + [ev] == t0 + (mk + [ev])
  {
  }

  lemma TargetsStep(parts: seq<string>, i: nat)
    requires i < |parts|
    ensures Current(parts[..i + 1]) ==
              if parts[i] == "" then Current(parts[..i]) else GoPath.Join2(Current(parts[..i]), parts[i])
    ensures Targets(parts[..i + 1]) ==
              if parts[i] == "" then Targets(parts[..i]) else Targets(parts[..i]) + ["/" + Current(parts[..i + 1])]
  {
    assert parts[..i + 1][..i] == parts[..i];
  }

  /** `ftpMkdirAll(conn, path)`: one `MakeDir` per non-empty element, on the
      accumulated prefix, ignoring every failure; the result is always nil. */
  method FtpMkdirAll(conn: Session, path: Path) returns (err: Option<string>, ghost mk: seq<Event>)
    requires conn.state == SessionState.Authenticated
    modifies conn.w
    ensures err == None
    ensures conn.w.trace == old(conn.w.trace) + mk
    ensures MakesDirs(mk, MkdirAllTargets(path))
    ensures Grows(old(conn.w.remote), conn.w.remote, MkdirAllTargets(path))
    ensures conn.w.local == old(conn.w.local) && conn.w.calls == old(conn.w.calls)
  {
    var w := conn.w;
    var parts := Parts(path);
    var current := "";
    mk := [];
    for i := 0 to |parts|
      invariant current == Current(parts[..i])
      invariant w.trace == old(w.trace) + mk
      invariant MakesDirs(mk, Targets(parts[..i]))
      invariant Grows(old(w.remote), w.remote, Targets(parts[..i]))
      invariant w.local == old(w.local) && w.calls == old(w.calls)
    {
      var part := parts[i];
      TargetsStep(parts, i);
      if part != "" {
        current := GoPath.Join2(current, part);
        ghost var before := w.remote;
        var e := conn.MakeDir("/" + current);
        ghost var ev := Event(Act.MakeDir("/" + current), OutcomeOf(e));
        GrowsStep(old(w.remote), before, w.remote, Targets(parts[..i]), "/" + current);
        MakesDirsSnoc(mk, Targets(parts[..i]), ev, "/" + current);
        AppendOne(old(w.trace), mk, ev);
        mk := mk + [ev];
      }
    }
    assert parts[..|parts|] == parts;
    err := None;
  }

  // ---------------------------------------------------------------------
  // Upload

  /** `FTPUpload` creates remote parents only when the parent of the
      target is neither "." nor "/". */
  predicate NeedsParents(remotePath: Path)
  {
    var d := GoPath.Dir(remotePath);
    d != "." && d != "/"
  }

  /** The directories `FTPUpload` asks for before storing. */
  function ParentTargets(remotePath: Path): seq<Path>
  {
    if NeedsParents(remotePath) then MkdirAllTargets(GoPath.Dir(remotePath)) else []
  }

  /** The steps of `FTPUpload` inside its session: open the local file;
      only when that worked, create the parents and then store. */
  ghost predicate UploadSteps(body: seq<Event>, localPath: Path, remotePath: Path)
  {
    OpenMakeStore(body, localPath, ParentTargets(remotePath), remotePath)
  }

  ghost predicate OpenMakeStore(body: seq<Event>, localPath: Path, dirs: seq<Path>, remotePath: Path)
  {
    && |body| >= 1 && body[0].act == LocalOpen(localPath)
    && (body[0].outcome.Fail? ==> |body| == 1)
    && (body[0].outcome.Ok? ==>
          && |body| == |dirs| + 2
          && MakesDirs(body[1..|body| - 1], dirs)
          && body[|body| - 1].act == Act.Stor(remotePath))
  }

  const UploadContexts: seq<string> := ["failed to open local file", "FTP upload failed"]

  /** A failed open reports the open error; otherwise only the store's
      outcome decides, whatever the directory requests did. */
  ghost function UploadError(body: seq<Event>): Option<string>
    requires |body| >= 1
  {
    if body[0].outcome.Fail? then Some(UploadContexts[0] + ": " + body[0].outcome.message)
    else if body[|body| - 1].outcome.Fail? then Some(UploadContexts[1] + ": " + body[|body| - 1].outcome.message)
    else None
  }

  /** Outside `p`, `after` keeps every entry of `before` and adds only
      directories named in `dirs`. */
  ghost predicate ExtendsAt(before: Tree, after: Tree, dirs: seq<Path>, p: Path)
  {
    && (forall k :: k in before && k != p ==> k in after && after[k] == before[k])
    && (forall k :: k in after && k !in before && k != p ==> after[k] == Folder && k in dirs)
  }

  lemma GrowsThenStore(a: Tree, b: Tree, c: Tree, dirs: seq<Path>, p: Path)
    requires Grows(a, b, dirs)
    requires forall k :: k != p ==> (k in c <==> k in b)
    requires forall k :: k in c && k != p ==> c[k] == b[k]
    ensures ExtendsAt(a, c, dirs, p)
  {
  }

  /** The steps of `FTPUpload` after the local file opened: the parent
      directories when needed, then the store of the opened file. */
  method StoreWithParents(conn: Session, file: Node, remotePath: Path) returns (err: Option<string>, ghost steps: seq<Event>)
    requires conn.state == SessionState.Authenticated
    modifies conn.w
    ensures conn.w.trace == old(conn.w.trace) + steps
    ensures |steps| == |ParentTargets(remotePath)| + 1
    ensures MakesDirs(steps[..|steps| - 1], ParentTargets(remotePath))
    ensures steps[|steps| - 1] == Event(Act.Stor(remotePath), OutcomeOf(err))
    ensures err.None? ==> remotePath in conn.w.remote && conn.w.remote[remotePath] == file && file.File?
    ensures ExtendsAt(old(conn.w.remote), conn.w.remote, ParentTargets(remotePath), remotePath)
    ensures conn.w.local == old(conn.w.local) && conn.w.calls == old(conn.w.calls)
  {
    var w := conn.w;
    ghost var mk := MakeParents(conn, remotePath);
    ghost var grown := w.remote;
    err := conn.Stor(remotePath, file);
    GrowsThenStore(old(w.remote), grown, w.remote, ParentTargets(remotePath), remotePath);
    steps := mk + [Event(Act.Stor(remotePath), OutcomeOf(err))];
    assert steps[..|steps| - 1] == mk;
  }

  /** The parent directories of `remotePath`, made only when its directory
      is neither "." nor "/". */
  method MakeParents(conn: Session, remotePath: Path) returns (ghost mk: seq<Event>)
    requires conn.state == SessionState.Authenticated
    modifies conn.w
    ensures conn.w.trace == old(conn.w.trace) + mk
    ensures MakesDirs(mk, ParentTargets(remotePath))
    ensures Grows(old(conn.w.remote), conn.w.remote, ParentTargets(remotePath))
    ensures conn.w.local == old(conn.w.local) && conn.w.calls == old(conn.w.calls)
  {
    var remoteDir := GoPath.Dir(remotePath);
    mk := [];
    if remoteDir != "." && remoteDir != "/" {
      var _, made := FtpMkdirAll(conn, remoteDir);
      mk := made;
    }
  }

  /** `FTPUpload(localPath, remotePath)`: the remote side changes only at
      `remotePath` and in the parent directories it creates. */
  method FtpUpload(c: Client, w: World, localPath: Path, remotePath: Path) returns (err: Option<string>, ghost seg: seq<Event>)
    modifies w
    ensures w.trace == old(w.trace) + seg
    ensures Scoped(seg, FtpAddress(c.baseUrl))
    ensures LoggedIn(seg) ==> UploadSteps(Body(seg), localPath, remotePath)
    ensures err == (if LoggedIn(seg) then UploadError(Body(seg)) else Some(ConnError(seg)))
    ensures err.None? ==> && IsFile(old(w.local), localPath)
                          && remotePath in w.remote && w.remote[remotePath] == old(w.local)[localPath]
    ensures ExtendsAt(old(w.remote), w.remote, ParentTargets(remotePath), remotePath)
    ensures w.local == old(w.local)
    ensures w.calls == old(w.calls) + [Call(UploadOp(localPath, remotePath), err)]
  {
    var conn: Session?;
    ghost var open: seq<Event>;
    conn, err, open := GetFtpConn(c, w);
    if conn == null {
      seg := open;
      w.calls := w.calls + [Call(UploadOp(localPath, remotePath), err)];
      return;
    }
    ghost var body;
    err, body := OpenAndStore(conn, localPath, remotePath);
    conn.Quit();
    seg := open + body + [Event(Act.Quit, Ok)];
    Regroup(old(w.trace), open, body, Event(Act.Quit, Ok));
    CloseSession(open, body, FtpAddress(c.baseUrl));
    w.calls := w.calls + [Call(UploadOp(localPath, remotePath), err)];
  }

  /** The logged-in part of `FTPUpload`: open the local file, then, if it
      opened, the parent directories and the store. */
  method OpenAndStore(conn: Session, localPath: Path, remotePath: Path) returns (err: Option<string>, ghost body: seq<Event>)
    requires conn.state == SessionState.Authenticated
    modifies conn.w
    ensures conn.w.trace == old(conn.w.trace) + body
    ensures UploadSteps(body, localPath, remotePath) && err == UploadError(body)
    ensures forall i :: 0 <= i < |body| ==> !IsControl(body[i].act)
    ensures err.None? ==> && IsFile(old(conn.w.local), localPath)
                          && remotePath in conn.w.remote && conn.w.remote[remotePath] == old(conn.w.local)[localPath]
    ensures ExtendsAt(old(conn.w.remote), conn.w.remote, ParentTargets(remotePath), remotePath)
    ensures conn.w.local == old(conn.w.local) && conn.w.calls == old(conn.w.calls)
  {
    var w := conn.w;
    var file, e := w.Open(localPath);
    ghost var opening := Event(LocalOpen(localPath), OutcomeOf(e));
    body := [opening];
    if e.Some? {
      err := Wrap(UploadContexts[0], e);
      assert UploadSteps(body, localPath, remotePath) && err == UploadError(body);
    } else {
      var e2;
      ghost var steps;
      e2, steps := StoreWithParents(conn, file, remotePath);
      err := Wrap(UploadContexts[1], e2);
      AppendSteps(old(w.trace), body, steps);
      UploadBody(opening, steps, localPath, ParentTargets(remotePath), remotePath);
      body := body + steps;
      assert UploadSteps(body, localPath, remotePath) && err == UploadError(body);
    }
  }

  lemma AppendSteps(t0: seq<Event>, body: seq<Event>, more: seq<Event>)
    ensures t0 + body + more == t0 + (body + more)
  {
  }

  lemma UploadBody(opening: Event, steps: seq<Event>, localPath: Path, dirs: seq<Path>, remotePath: Path)
    requires opening.act == LocalOpen(localPath) && opening.outcome.Ok?
    requires |steps| == |dirs| + 1
    requires MakesDirs(steps[..|steps| - 1], dirs)
    requires steps[|steps| - 1].act == Act.Stor(remotePath)
    ensures OpenMakeStore([opening] + steps, localPath, dirs, remotePath)
    ensures forall i :: 0 <= i < |[opening] + steps| ==> !IsControl(([opening] + steps)[i].act)
  {
    var body := [opening] + steps;
    assert body[1..|body| - 1] == steps[..|steps| - 1];
    forall i | 0 <= i < |body| ensures !IsControl(body[i].act) {
      if 0 < i < |body| - 1 {
        assert body[i] == steps[..|steps| - 1][i - 1];
      }
    }
  }


  // ---------------------------------------------------------------------
  // Download

  function DownloadActs(remotePath: Path, localPath: Path): seq<Act>
  {
    [Act.Retr(remotePath), LocalMkdirAll(GoPath.Dir(localPath)), LocalCreate(localPath), LocalWrite(localPath)]
  }

  lemma DownloadActsNoControl(remotePath: Path, localPath: Path)
    ensures |DownloadActs(remotePath, localPath)| == 4
    ensures forall i :: 0 <= i < |DownloadActs(remotePath, localPath)| ==> !IsControl(DownloadActs(remotePath, localPath)[i])
  {
  }

  const DownloadContexts: seq<string> :=
    ["FTP download failed", "failed to create local directory", "failed to create local file", "failed to write file"]

  /** Only `p` and `d` may differ between the trees. */
  ghost predicate SameExceptAt(before: Tree, after: Tree, p: Path, d: Path)
  {
    forall k :: k in before && k != p && k != d ==> k in after && after[k] == before[k]
  }

  function LocalSaveActs(localDir: Path, localPath: Path): seq<Act>
  {
    [LocalMkdirAll(localDir), LocalCreate(localPath), LocalWrite(localPath)]
  }

  /** The local half of `FTPDownload`: create the directory `localDir`,
      create the file, copy the retrieved bytes into it; stop at the first
      failure. */
  method SaveLocal(w: World, localDir: Path, localPath: Path, data: seq<byte>) returns (err: Option<string>, ghost steps: seq<Event>)
    modifies w
    ensures w.trace == old(w.trace) + steps
    ensures RunsUntilFailure(steps, LocalSaveActs(localDir, localPath))
    ensures err == StepError(steps, DownloadContexts[1..])
    ensures err.None? ==> localPath in w.local && w.local[localPath] == File(data)
    ensures SameExceptAt(old(w.local), w.local, localPath, localDir)
    ensures localPath in old(w.local) ==> localPath in w.local
    ensures w.remote == old(w.remote) && w.calls == old(w.calls)
  {
    var e := w.MkdirAll(localDir);
    ghost var mkdir := Event(LocalMkdirAll(localDir), OutcomeOf(e));
    if e.Some? {
      err, steps := Wrap(DownloadContexts[1], e), [mkdir];
      FirstStepFails(mkdir, e, LocalSaveActs(localDir, localPath), DownloadContexts[1..]);
      return;
    }
    ghost var rest;
    err, rest := WriteLocal(w, localPath, data);
    assert LocalSaveActs(localDir, localPath)[1..] == [LocalCreate(localPath), LocalWrite(localPath)];
    assert DownloadContexts[1..][1..] == DownloadContexts[2..];
    RunAfterSuccess(mkdir, rest, LocalSaveActs(localDir, localPath), DownloadContexts[1..]);
    AppendSteps(old(w.trace), [mkdir], rest);
    steps := [mkdir] + rest;
  }

  /** Create the file, then copy the retrieved bytes into it. */
  method WriteLocal(w: World, localPath: Path, data: seq<byte>) returns (err: Option<string>, ghost steps: seq<Event>)
    modifies w
    ensures w.trace == old(w.trace) + steps
    ensures RunsUntilFailure(steps, [LocalCreate(localPath), LocalWrite(localPath)])
    ensures err == StepError(steps, DownloadContexts[2..])
    ensures err.None? ==> localPath in w.local && w.local[localPath] == File(data)
    ensures forall k :: k in old(w.local) && k != localPath ==> k in w.local && w.local[k] == old(w.local)[k]
    ensures localPath in old(w.local) ==> localPath in w.local
    ensures w.remote == old(w.remote) && w.calls == old(w.calls)
  {
    var e := w.Create(localPath);
    ghost var create := Event(LocalCreate(localPath), OutcomeOf(e));
    if e.Some? {
      err, steps := Wrap(DownloadContexts[2], e), [create];
      FirstStepFails(create, e, [LocalCreate(localPath), LocalWrite(localPath)], DownloadContexts[2..]);
      return;
    }
    e := w.Write(localPath, data);
    ghost var write := Event(LocalWrite(localPath), OutcomeOf(e));
    err := Wrap(DownloadContexts[3], e);
    OnlyStep(write, e, LocalWrite(localPath), DownloadContexts[3]);
    assert DownloadContexts[2..][1..] == [DownloadContexts[3]];
    RunAfterSuccess(create, [write], [LocalCreate(localPath), LocalWrite(localPath)], DownloadContexts[2..]);
    AppendOne(old(w.trace), [create], write);
    steps := [create, write];
  }

  /** A one-step run. */
  lemma OnlyStep(ev: Event, e: Option<string>, act: Act, context: string)
    requires ev == Event(act, OutcomeOf(e))
    ensures RunsUntilFailure([ev], [act])
    ensures StepError([ev], [context]) == Wrap(context, e)
  {
    assert Acts([ev]) == [act];
  }

  /** A failed first step is a whole run, with that step's error. */
  lemma FirstStepFails(first: Event, e: Option<string>, acts: seq<Act>, contexts: seq<string>)
    requires |acts| == |contexts| && |acts| >= 2
    requires e.Some? && first == Event(acts[0], OutcomeOf(e))
    ensures RunsUntilFailure([first], acts)
    ensures StepError([first], contexts) == Wrap(contexts[0], e)
  {
    assert Acts([first]) == [acts[0]] == acts[..1];
  }

  /** A successful first step followed by a run of the remaining steps is
      a run of all of them, with the same error. */
  lemma RunAfterSuccess(first: Event, rest: seq<Event>, acts: seq<Act>, contexts: seq<string>)
    requires first.outcome.Ok? && |acts| == |contexts| && |acts| >= 1
    requires RunsUntilFailure(rest, acts[1..]) && first.act == acts[0]
    ensures RunsUntilFailure([first] + rest, acts)
    ensures StepError([first] + rest, contexts) == StepError(rest, contexts[1..])
  {
    var all := [first] + rest;
    assert all[1..] == rest;
    assert Acts(all) == [first.act] + Acts(rest);
    assert acts[..|all|] == [acts[0]] + acts[1..][..|rest|];
  }

  /** `FTPDownload(remotePath, localPath)`: nothing local happens unless
      the retrieval succeeded; the remote side never changes. */
  method FtpDownload(c: Client, w: World, remotePath: Path, localPath: Path) returns (err: Option<string>, ghost seg: seq<Event>)
    modifies w
    ensures w.trace == old(w.trace) + seg
    ensures SessionRun(seg, FtpAddress(c.baseUrl), DownloadActs(remotePath, localPath), DownloadContexts, err)
    ensures (!LoggedIn(seg) || Body(seg)[0].outcome.Fail?) ==> w.local == old(w.local)
    ensures err.None? ==> && IsFile(old(w.remote), remotePath)
                          && localPath in w.local && w.local[localPath] == old(w.remote)[remotePath]
    ensures SameExceptAt(old(w.local), w.local, localPath, GoPath.Dir(localPath))
    ensures localPath in old(w.local) ==> localPath in w.local
    ensures w.remote == old(w.remote)
    ensures w.calls == old(w.calls) + [Call(DownloadOp(remotePath, localPath), err)]
  {
    var conn: Session?;
    ghost var open: seq<Event>;
    conn, err, open := GetFtpConn(c, w);
    if conn == null {
      seg := open;
      NoSession(seg, FtpAddress(c.baseUrl), DownloadActs(remotePath, localPath), DownloadContexts, err);
      w.calls := w.calls + [Call(DownloadOp(remotePath, localPath), err)];
      return;
    }
    ghost var body;
    err, body := RetrAndSave(conn, remotePath, localPath);
    conn.Quit();
    seg := open + body + [Event(Act.Quit, Ok)];
    Regroup(old(w.trace), open, body, Event(Act.Quit, Ok));
    DownloadActsNoControl(remotePath, localPath);
    FinishRun(open, body, FtpAddress(c.baseUrl), DownloadActs(remotePath, localPath), DownloadContexts, err);
    w.calls := w.calls + [Call(DownloadOp(remotePath, localPath), err)];
  }

  /** The logged-in part of `FTPDownload`: the retrieval, then, if it
      succeeded, the local save. */
  method RetrAndSave(conn: Session, remotePath: Path, localPath: Path) returns (err: Option<string>, ghost body: seq<Event>)
    requires conn.state == SessionState.Authenticated
    modifies conn.w
    ensures conn.w.trace == old(conn.w.trace) + body
    ensures RunsUntilFailure(body, DownloadActs(remotePath, localPath)) && err == StepError(body, DownloadContexts)
    ensures body[0].outcome.Fail? ==> conn.w.local == old(conn.w.local)
    ensures err.None? ==> && IsFile(old(conn.w.remote), remotePath)
                          && localPath in conn.w.local && conn.w.local[localPath] == old(conn.w.remote)[remotePath]
    ensures SameExceptAt(old(conn.w.local), conn.w.local, localPath, GoPath.Dir(localPath))
    ensures localPath in old(conn.w.local) ==> localPath in conn.w.local
    ensures conn.w.remote == old(conn.w.remote) && conn.w.calls == old(conn.w.calls)
  {
    var w := conn.w;
    var data, e := conn.Retr(remotePath);
    ghost var retr := Event(Act.Retr(remotePath), OutcomeOf(e));
    body := [retr];
    if e.Some? {
      err := Wrap(DownloadContexts[0], e);
      FirstStepFails(retr, e, DownloadActs(remotePath, localPath), DownloadContexts);
    } else {
      ghost var steps;
      err, steps := SaveLocal(w, GoPath.Dir(localPath), localPath, data);
      assert LocalSaveActs(GoPath.Dir(localPath), localPath) == DownloadActs(remotePath, localPath)[1..];
      RunAfterSuccess(retr, steps, DownloadActs(remotePath, localPath), DownloadContexts);
      AppendSteps(old(w.trace), body, steps);
      body := body + steps;
    }
  }

  // ---------------------------------------------------------------------
  // Single-request operations

  /** `FTPMkdir(path)`: one `MakeDir`, no ancestor creation. */
  method FtpMkdir(c: Client, w: World, path: Path) returns (err: Option<string>, ghost seg: seq<Event>)
    modifies w
    ensures w.trace == old(w.trace) + seg
    ensures SessionRun(seg, FtpAddress(c.baseUrl), [Act.MakeDir(path)], ["failed to create directory"], err)
    ensures err.None? ==> CanMakeDir(old(w.remote), path) && w.remote == old(w.remote)[path := Folder]
    ensures err.Some? ==> w.remote == old(w.remote)
    ensures w.local == old(w.local)
    ensures w.calls == old(w.calls) + [Call(MkdirOp(path), err)]
  {
    var conn: Session?;
    ghost var open: seq<Event>;
    conn, err, open := GetFtpConn(c, w);
    if conn == null {
      seg := open;
      NoSession(seg, FtpAddress(c.baseUrl), [Act.MakeDir(path)], ["failed to create directory"], err);
      w.calls := w.calls + [Call(MkdirOp(path), err)];
      return;
    }
    var e := conn.MakeDir(path);
    ghost var body := [Event(Act.MakeDir(path), OutcomeOf(e))];
    err := Wrap("failed to create directory", e);
    conn.Quit();
    seg := open + body + [Event(Act.Quit, Ok)];
    Regroup(old(w.trace), open, body, Event(Act.Quit, Ok));
    OneStep(Act.MakeDir(path), e, "failed to create directory");
    FinishRun(open, body, FtpAddress(c.baseUrl), [Act.MakeDir(path)], ["failed to create directory"], err);
    w.calls := w.calls + [Call(MkdirOp(path), err)];
  }

  /** `FTPDelete(path)`: removes a file. */
  method FtpDelete(c: Client, w: World, path: Path) returns (err: Option<string>, ghost seg: seq<Event>)
    modifies w
    ensures w.trace == old(w.trace) + seg
    ensures SessionRun(seg, FtpAddress(c.baseUrl), [Act.Delete(path)], ["failed to delete file"], err)
    ensures err.None? ==> IsFile(old(w.remote), path) && w.remote == old(w.remote) - {path}
    ensures err.Some? ==> w.remote == old(w.remote)
    ensures w.local == old(w.local)
    ensures w.calls == old(w.calls) + [Call(DeleteOp(path), err)]
  {
    var conn: Session?;
    ghost var open: seq<Event>;
    conn, err, open := GetFtpConn(c, w);
    if conn == null {
      seg := open;
      NoSession(seg, FtpAddress(c.baseUrl), [Act.Delete(path)], ["failed to delete file"], err);
      w.calls := w.calls + [Call(DeleteOp(path), err)];
      return;
    }
    var e := conn.Delete(path);
    ghost var body := [Event(Act.Delete(path), OutcomeOf(e))];
    err := Wrap("failed to delete file", e);
    conn.Quit();
    seg := open + body + [Event(Act.Quit, Ok)];
    Regroup(old(w.trace), open, body, Event(Act.Quit, Ok));
    OneStep(Act.Delete(path), e, "failed to delete file");
    FinishRun(open, body, FtpAddress(c.baseUrl), [Act.Delete(path)], ["failed to delete file"], err);
    w.calls := w.calls + [Call(DeleteOp(path), err)];
  }

  /** `FTPDeleteDir(path)`: removes an empty directory. */
  method FtpDeleteDir(c: Client, w: World, path: Path) returns (err: Option<string>, ghost seg: seq<Event>)
    modifies w
    ensures w.trace == old(w.trace) + seg
    ensures SessionRun(seg, FtpAddress(c.baseUrl), [Act.RemoveDir(path)], ["failed to delete directory"], err)
    ensures err.None? ==> && path in old(w.remote) && old(w.remote)[path].Folder?
                          && Children(old(w.remote), path) == {} && w.remote == old(w.remote) - {path}
    ensures err.Some? ==> w.remote == old(w.remote)
    ensures w.local == old(w.local)
    ensures w.calls == old(w.calls) + [Call(DeleteDirOp(path), err)]
  {
    var conn: Session?;
    ghost var open: seq<Event>;
    conn, err, open := GetFtpConn(c, w);
    if conn == null {
      seg := open;
      NoSession(seg, FtpAddress(c.baseUrl), [Act.RemoveDir(path)], ["failed to delete directory"], err);
      w.calls := w.calls + [Call(DeleteDirOp(path), err)];
      return;
    }
    var e := conn.RemoveDir(path);
    ghost var body := [Event(Act.RemoveDir(path), OutcomeOf(e))];
    err := Wrap("failed to delete directory", e);
    conn.Quit();
    seg := open + body + [Event(Act.Quit, Ok)];
    Regroup(old(w.trace), open, body, Event(Act.Quit, Ok));
    OneStep(Act.RemoveDir(path), e, "failed to delete directory");
    FinishRun(open, body, FtpAddress(c.baseUrl), [Act.RemoveDir(path)], ["failed to delete directory"], err);
    w.calls := w.calls + [Call(DeleteDirOp(path), err)];
  }

  /** `FTPRename(oldPath, newPath)`: one rename, arguments in that order. */
  method FtpRename(c: Client, w: World, oldPath: Path, newPath: Path) returns (err: Option<string>, ghost seg: seq<Event>)
    modifies w
    ensures w.trace == old(w.trace) + seg
    ensures SessionRun(seg, FtpAddress(c.baseUrl), [Act.Rename(oldPath, newPath)], ["failed to rename"], err)
    ensures err.None? ==> CanRename(old(w.remote), oldPath, newPath) && w.remote == Renamed(old(w.remote), oldPath, newPath)
    ensures err.Some? ==> w.remote == old(w.remote)
    ensures w.local == old(w.local)
    ensures w.calls == old(w.calls) + [Call(RenameOp(oldPath, newPath), err)]
  {
    var conn: Session?;
    ghost var open: seq<Event>;
    conn, err, open := GetFtpConn(c, w);
    if conn == null {
      seg := open;
      NoSession(seg, FtpAddress(c.baseUrl), [Act.Rename(oldPath, newPath)], ["failed to rename"], err);
      w.calls := w.calls + [Call(RenameOp(oldPath, newPath), err)];
      return;
    }
    var e := conn.Rename(oldPath, newPath);
    ghost var body := [Event(Act.Rename(oldPath, newPath), OutcomeOf(e))];
    err := Wrap("failed to rename", e);
    conn.Quit();
    seg := open + body + [Event(Act.Quit, Ok)];
    Regroup(old(w.trace), open, body, Event(Act.Quit, Ok));
    OneStep(Act.Rename(oldPath, newPath), e, "failed to rename");
    FinishRun(open, body, FtpAddress(c.baseUrl), [Act.Rename(oldPath, newPath)], ["failed to rename"], err);
    w.calls := w.calls + [Call(RenameOp(oldPath, newPath), err)];
  }
}
