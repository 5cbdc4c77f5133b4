/** The environment the FTP layer acts on: the device's file tree as its FTP
    server exposes it, the local file system, and an FTP session
    (`ftp.ServerConn` of the FTP client library) as a state machine
    Unopened -> Dialed -> Authenticated -> Closed.

    Every remote request and every local file operation may fail for a
    reason the client cannot see; each primitive below chooses its outcome
    nondeterministically, and succeeds only when its semantic condition
    holds (a delete only removes a file, a directory removal only removes
    an empty directory, ...). Every primitive records what it did, with its
    outcome, in the ghost `trace`; the operations that the command layer
    calls directly are recorded, with their results, in the ghost `calls`. */
module Remote {
  import opened TextUtil
  import GoPath

  newtype byte = x: int | 0 <= x < 256

  type Path = string

  datatype Node = File(data: seq<byte>) | Folder

  /** A file tree keyed by the exact path strings the requests carry. */
  type Tree = map<Path, Node>

  /** `ftp.EntryType`: what the server says a listed entry is. */
  datatype EntryKind = KindFile | KindFolder | KindLink

  /** One line of an FTP directory listing (`ftp.Entry`). */
  datatype RawEntry = RawEntry(name: string, size: nat, kind: EntryKind)

  datatype Outcome = Ok | Fail(message: string)

  /** What a primitive was asked to do. */
  datatype Act =
    | Dial(addr: string)
    | Login(user: string, password: string)
    | Quit
    | ListDir(path: Path)
    | MakeDir(path: Path)
    | Stor(path: Path)
    | Retr(path: Path)
    | Delete(path: Path)
    | RemoveDir(path: Path)
    | Rename(from: Path, to: Path)
    | LocalOpen(path: Path)
    | LocalMkdirAll(path: Path)
    | LocalCreate(path: Path)
    | LocalWrite(path: Path)

  datatype Event = Event(act: Act, outcome: Outcome)

  /** The operations the command layer invokes: the FTP client's methods
      and the few `os` calls the commands make themselves. */
  datatype Op =
    | ListOp(path: Path)
    | UploadOp(localPath: Path, remotePath: Path)
    | DownloadOp(remotePath: Path, localPath: Path)
    | MkdirOp(path: Path)
    | DeleteOp(path: Path)
    | DeleteDirOp(path: Path)
    | RenameOp(from: Path, to: Path)
    | StatOp(path: Path)
    | CreateTempOp(path: Path)
    | RemoveOp(path: Path)

  datatype Call = Call(op: Op, err: Option<string>)

  function OutcomeOf(err: Option<string>): Outcome
  {
    if err.None? then Ok else Fail(err.value)
  }

  function Acts(events: seq<Event>): (r: seq<Act>)
    ensures |r| == |events|
    ensures forall i :: 0 <= i < |events| ==> r[i] == events[i].act
  {
    if events == [] then [] else [events[0].act] + Acts(events[1..])
  }

  /** The root always exists as a directory. */
  predicate IsDir(t: Tree, p: Path)
  {
    p == "/" || (p in t && t[p].Folder?)
  }

  predicate IsFile(t: Tree, p: Path)
  {
    p in t && t[p].File?
  }

  /** The entries whose parent directory is `p`. */
  function Children(t: Tree, p: Path): set<Path>
  {
    set k | k in t.Keys && k != p && GoPath.Dir(k) == p
  }

  /** How the server lists the entry `k`. */
  function EntryOf(t: Tree, k: Path): RawEntry
    requires k in t
  {
    match t[k]
    case File(data) => RawEntry(GoPath.Base(k), |data|, KindFile)
    case Folder => RawEntry(GoPath.Base(k), 0, KindFolder)
  }

  /** `k` is `a` itself or lies below it. */
  predicate Within(k: Path, a: Path)
  {
    k == a || IsPrefix(a + "/", k)
  }

  function Rebase(k: Path, a: Path, b: Path): Path
    requires Within(k, a)
  {
    b + k[|a|..]
  }

  function Unrebase(k: Path, a: Path, b: Path): Path
    requires Within(k, b)
  {
    a + k[|b|..]
  }

  /** A rename may move `a` to `b` when `a` exists and nothing exists at or
      below `b`, `b` is not below `a`, and the parent of `b` is a directory. */
  predicate CanRename(t: Tree, a: Path, b: Path)
  {
    && a in t
    && (forall k :: k in t ==> !Within(k, b))
    && !Within(b, a)
    && IsDir(t, GoPath.Dir(b))
  }

  function MovedKeys(t: Tree, a: Path, b: Path): set<Path>
  {
    (set k | k in t.Keys && !Within(k, a)) + (set k | k in t.Keys && Within(k, a) :: Rebase(k, a, b))
  }

  /** Where the renamed tree takes the entry now at `k` from. */
  function Source(k: Path, a: Path, b: Path): Path
  {
    if Within(k, b) then Unrebase(k, a, b) else k
  }

  lemma RebaseWithin(k: Path, a: Path, b: Path)
    requires Within(k, a)
    ensures Within(Rebase(k, a, b), b)
    ensures Unrebase(Rebase(k, a, b), a, b) == k
  {
    var r := Rebase(k, a, b);
    if k != a {
      assert k[|a|..] == "/" + k[|a| + 1..];
      assert r == b + "/" + k[|a| + 1..];
      assert IsPrefix(b + "/", r);
    }
    assert r[|b|..] == k[|a|..];
    assert k == a + k[|a|..];
  }

  lemma MovedKeysHaveSource(t: Tree, a: Path, b: Path)
    requires CanRename(t, a, b)
    ensures forall k :: k in MovedKeys(t, a, b) ==> Source(k, a, b) in t
  {
    forall k | k in MovedKeys(t, a, b) ensures Source(k, a, b) in t {
      if k in t && !Within(k, a) {
        assert !Within(k, b);
      } else {
        var j :| j in t && Within(j, a) && k == Rebase(j, a, b);
        RebaseWithin(j, a, b);
      }
    }
  }

  /** The tree after `a` and everything below it moved to `b`. */
  function Renamed(t: Tree, a: Path, b: Path): (r: Tree)
    requires CanRename(t, a, b)
    ensures b in r && r[b] == t[a]
    ensures a !in r
    ensures forall k :: k in t && Within(k, a) ==> Rebase(k, a, b) in r && r[Rebase(k, a, b)] == t[k]
    ensures forall k :: k in t && !Within(k, a) ==> k in r && r[k] == t[k]
  {
    MovedKeysHaveSource(t, a, b);
    RebaseWithin(a, a, b);
    assert b == Rebase(a, a, b);
    var r := map k | k in MovedKeys(t, a, b) :: t[Source(k, a, b)];
    RenamedLeavesSource(t, a, b, r);
    RenamedMovesSubtree(t, a, b, r);
    r
  }

  /** The old name is gone, and entries outside the moved subtree stay. */
  lemma RenamedLeavesSource(t: Tree, a: Path, b: Path, r: Tree)
    requires CanRename(t, a, b)
    requires forall k :: k in MovedKeys(t, a, b) ==> Source(k, a, b) in t
    requires r == map k | k in MovedKeys(t, a, b) :: t[Source(k, a, b)]
    ensures a !in r
    ensures forall k :: k in t && !Within(k, a) ==> k in r && r[k] == t[k]
  {
    if a in MovedKeys(t, a, b) {
      var j :| j in t && Within(j, a) && a == Rebase(j, a, b);
      RebaseWithin(j, a, b);
      assert false;
    }
    forall k | k in t && !Within(k, a) ensures k in r && r[k] == t[k] {
      assert !Within(k, b);
      assert k in MovedKeys(t, a, b);
    }
  }

  /** Every entry at or below `a` reappears at the same place below `b`. */
  lemma RenamedMovesSubtree(t: Tree, a: Path, b: Path, r: Tree)
    requires CanRename(t, a, b)
    requires forall k :: k in MovedKeys(t, a, b) ==> Source(k, a, b) in t
    requires r == map k | k in MovedKeys(t, a, b) :: t[Source(k, a, b)]
    ensures forall k :: k in t && Within(k, a) ==> Rebase(k, a, b) in r && r[Rebase(k, a, b)] == t[k]
  {
    forall k | k in t && Within(k, a) ensures Rebase(k, a, b) in r && r[Rebase(k, a, b)] == t[k] {
      RebaseWithin(k, a, b);
      assert Rebase(k, a, b) in MovedKeys(t, a, b);
    }
  }

  /** After a rename, the new parent lists the new name and the old
      parent no longer lists the old one. */
  lemma RenameListings(t: Tree, a: Path, b: Path)
    requires CanRename(t, a, b)
    ensures b != GoPath.Dir(b) ==> b in Children(Renamed(t, a, b), GoPath.Dir(b))
    ensures a !in Children(Renamed(t, a, b), GoPath.Dir(a))
  {
  }

  /** Whether a `MakeDir(p)` can create `p`. */
  predicate CanMakeDir(t: Tree, p: Path)
  {
    p != "/" && p !in t && IsDir(t, GoPath.Dir(p))
  }

  /** Whether a `Stor(p)` can write a file at `p`. */
  predicate CanStore(t: Tree, p: Path)
  {
    !IsDir(t, p) && IsDir(t, GoPath.Dir(p))
  }

  predicate IsLocalDir(t: Tree, p: Path)
  {
    p == "." || IsDir(t, p)
  }

  /** `raw` lists every key of `keys` exactly once, `order[i]` being the
      key behind `raw[i]`. */
  ghost predicate Lists(t: Tree, keys: set<Path>, raw: seq<RawEntry>, order: seq<Path>)
    requires keys <= t.Keys
  {
    && |order| == |raw|
    && (forall i :: 0 <= i < |order| ==> order[i] in keys && raw[i] == EntryOf(t, order[i]))
    && (forall k :: k in keys ==> k in order)
    && (forall i, j :: 0 <= i < j < |order| ==> order[i] != order[j])
  }

  /** The listing of directory `p`: each child once, in any order. */
  ghost predicate IsListing(t: Tree, p: Path, raw: seq<RawEntry>, order: seq<Path>)
  {
    Lists(t, Children(t, p), raw, order)
  }

  /** `raw` lists every key of `keys` outside `pending` once. */
  ghost predicate ListsSoFar(t: Tree, keys: set<Path>, pending: set<Path>, raw: seq<RawEntry>, order: seq<Path>)
    requires keys <= t.Keys
  {
    && pending <= keys
    && |order| == |raw|
    && (forall i :: 0 <= i < |order| ==> order[i] in keys && order[i] !in pending && raw[i] == EntryOf(t, order[i]))
    && (forall k :: k in keys && k !in pending ==> k in order)
    && (forall i, j :: 0 <= i < j < |order| ==> order[i] != order[j])
  }

  lemma ListsOneMore(t: Tree, keys: set<Path>, pending: set<Path>, raw: seq<RawEntry>, order: seq<Path>, k: Path)
    requires keys <= t.Keys && k in pending
    requires ListsSoFar(t, keys, pending, raw, order)
    ensures ListsSoFar(t, keys, pending - {k}, raw + [EntryOf(t, k)], order + [k])
  {
    var order', raw' := order + [k], raw + [EntryOf(t, k)];
    forall i, j | 0 <= i < j < |order'| ensures order'[i] != order'[j] {
      if j == |order| { assert order'[i] == order[i] && order[i] !in pending; }
    }
  }

  /** The server walks a set of entries in an order of its own. */
  method Enumerate(t: Tree, keys: set<Path>) returns (raw: seq<RawEntry>, ghost order: seq<Path>)
    requires keys <= t.Keys
    ensures Lists(t, keys, raw, order)
  {
    var pending := keys;
    raw, order := [], [];
    while pending != {}
      invariant ListsSoFar(t, keys, pending, raw, order)
      decreases |pending|
    {
      var k :| k in pending;
      ListsOneMore(t, keys, pending, raw, order, k);
      order, raw := order + [k], raw + [EntryOf(t, k)];
      pending := pending - {k};
    }
  }

  /** Both file trees, with the records of what was done to them. */
  class World {
    var remote: Tree
    var local: Tree
    ghost var trace: seq<Event>
    ghost var calls: seq<Call>

    constructor (remote: Tree, local: Tree)
      ensures this.remote == remote && this.local == local
      ensures trace == [] && calls == []
    {
      this.remote, this.local := remote, local;
      trace, calls := [], [];
    }

    /** `os.Open(p)` for reading: works on files and directories. */
    method Open(p: Path) returns (node: Node, err: Option<string>)
      modifies this
      ensures err.None? ==> (p in old(local) && node == old(local)[p]) ||
                            (p !in old(local) && IsLocalDir(old(local), p) && node == Folder)
      ensures remote == old(remote) && local == old(local) && calls == old(calls)
      ensures trace == old(trace) + [Event(LocalOpen(p), OutcomeOf(err))]
    {
      var ok: bool := *;
      var msg: string := *;
      node := Folder;
      err := None;
      if ok && p in local {
        node := local[p];
      } else if !(ok && IsLocalDir(local, p)) {
        err := Some(msg);
      }
      trace := trace + [Event(LocalOpen(p), OutcomeOf(err))];
    }

    /** `os.MkdirAll(d, 0755)`: succeeds when `d` is (or becomes) a directory.
        The model records the directory itself, not its missing ancestors. */
    method MkdirAll(d: Path) returns (err: Option<string>)
      modifies this
      ensures err.None? ==> local == (if IsLocalDir(old(local), d) then old(local) else old(local)[d := Folder])
      ensures err.None? ==> !IsFile(old(local), d)
      ensures err.Some? ==> local == old(local)
      ensures remote == old(remote) && calls == old(calls)
      ensures trace == old(trace) + [Event(LocalMkdirAll(d), OutcomeOf(err))]
    {
      var ok: bool := *;
      var msg: string := *;
      if ok && !IsFile(local, d) {
        err := None;
        if !IsLocalDir(local, d) {
          local := local[d := Folder];
        }
      } else {
        err := Some(msg);
      }
      trace := trace + [Event(LocalMkdirAll(d), OutcomeOf(err))];
    }

    /** `os.Create(p)`: creates or truncates the file `p`. */
    method Create(p: Path) returns (err: Option<string>)
      modifies this
      ensures err.None? ==> !IsLocalDir(old(local), p) && local == old(local)[p := File([])]
      ensures err.Some? ==> local == old(local)
      ensures remote == old(remote) && calls == old(calls)
      ensures trace == old(trace) + [Event(LocalCreate(p), OutcomeOf(err))]
    {
      var ok: bool := *;
      var msg: string := *;
      if ok && !IsLocalDir(local, p) {
        err := None;
        local := local[p := File([])];
      } else {
        err := Some(msg);
      }
      trace := trace + [Event(LocalCreate(p), OutcomeOf(err))];
    }

    /** `io.Copy` of `data` into the open file `p`: on failure a prefix of
        `data` may have been written. */
    method Write(p: Path, data: seq<byte>) returns (err: Option<string>)
      modifies this
      ensures err.None? ==> local == old(local)[p := File(data)]
      ensures err.Some? ==> exists n :: 0 <= n <= |data| && local == old(local)[p := File(data[..n])]
      ensures remote == old(remote) && calls == old(calls)
      ensures trace == old(trace) + [Event(LocalWrite(p), OutcomeOf(err))]
    {
      var ok: bool := *;
      var msg: string := *;
      if ok {
        err := None;
        local := local[p := File(data)];
      } else {
        var n: int := *;
        var cut := if 0 <= n <= |data| then n else |data|;
        err := Some(msg);
        local := local[p := File(data[..cut])];
      }
      trace := trace + [Event(LocalWrite(p), OutcomeOf(err))];
    }

    /** `os.Stat(p)`, as the upload command calls it. */
    method Stat(p: Path) returns (node: Node, err: Option<string>)
      modifies this
      ensures err.None? ==> (p in local && node == local[p]) || (p !in local && IsLocalDir(local, p) && node == Folder)
      ensures remote == old(remote) && local == old(local) && trace == old(trace)
      ensures calls == old(calls) + [Call(StatOp(p), err)]
    {
      var ok: bool := *;
      var msg: string := *;
      node := Folder;
      err := None;
      if ok && p in local {
        node := local[p];
      } else if !(ok && IsLocalDir(local, p)) {
        err := Some(msg);
      }
      calls := calls + [Call(StatOp(p), err)];
    }

    /** `os.CreateTemp`: `name` is the fresh name the system picks. */
    method CreateTemp(name: Path) returns (err: Option<string>)
      modifies this
      ensures err.None? ==> name !in old(local) && local == old(local)[name := File([])]
      ensures err.Some? ==> local == old(local)
      ensures remote == old(remote) && trace == old(trace)
      ensures calls == old(calls) + [Call(CreateTempOp(name), err)]
    {
      var ok: bool := *;
      var msg: string := *;
      if ok && name !in local {
        err := None;
        local := local[name := File([])];
      } else {
        err := Some(msg);
      }
      calls := calls + [Call(CreateTempOp(name), err)];
    }

    /** `os.Remove(p)`. */
    method Remove(p: Path) returns (err: Option<string>)
      modifies this
      ensures err.None? ==> p in old(local) && local == old(local) - {p}
      ensures err.Some? ==> local == old(local)
      ensures remote == old(remote) && trace == old(trace)
      ensures calls == old(calls) + [Call(RemoveOp(p), err)]
    {
      var ok: bool := *;
      var msg: string := *;
      if ok && p in local {
        err := None;
        local := local - {p};
      } else {
        err := Some(msg);
      }
      calls := calls + [Call(RemoveOp(p), err)];
    }
  }

  datatype SessionState = Unopened | Dialed | Authenticated | Closed

  /** One FTP control connection. Requests other than `Dial`, `Login` and
      `Quit` are only possible on an authenticated session, and `Quit`
      closes a dialed or authenticated session. */
  class Session {
    const w: World
    var state: SessionState

    constructor (w: World)
      ensures this.w == w && state == Unopened
    {
      this.w := w;
      state := Unopened;
    }

    /** `ftp.Dial(addr)`. */
    method Dial(addr: string) returns (err: Option<string>)
      requires state == Unopened
      modifies this, w
      ensures state == (if err.None? then Dialed else Unopened)
      ensures w.remote == old(w.remote) && w.local == old(w.local) && w.calls == old(w.calls)
      ensures w.trace == old(w.trace) + [Event(Act.Dial(addr), OutcomeOf(err))]
    {
      var ok: bool := *;
      var msg: string := *;
      err := if ok then None else Some(msg);
      if ok { state := Dialed; }
      w.trace := w.trace + [Event(Act.Dial(addr), OutcomeOf(err))];
    }

    /** `conn.Login(user, password)`. */
    method Login(user: string, password: string) returns (err: Option<string>)
      requires state == Dialed
      modifies this, w
      ensures state == (if err.None? then Authenticated else Dialed)
      ensures w.remote == old(w.remote) && w.local == old(w.local) && w.calls == old(w.calls)
      ensures w.trace == old(w.trace) + [Event(Act.Login(user, password), OutcomeOf(err))]
    {
      var ok: bool := *;
      var msg: string := *;
      err := if ok then None else Some(msg);
      if ok { state := Authenticated; }
      w.trace := w.trace + [Event(Act.Login(user, password), OutcomeOf(err))];
    }

    /** `conn.Quit()`: its error is never looked at, so it is not modelled. */
    method Quit()
      requires state == Dialed || state == Authenticated
      modifies this, w
      ensures state == Closed
      ensures w.remote == old(w.remote) && w.local == old(w.local) && w.calls == old(w.calls)
      ensures w.trace == old(w.trace) + [Event(Act.Quit, Ok)]
    {
      state := Closed;
      w.trace := w.trace + [Event(Act.Quit, Ok)];
    }

    /** `conn.List(p)`: one entry per child of `p`, in an order the server
        chooses (`order` names the child behind each entry). */
    method List(p: Path) returns (raw: seq<RawEntry>, err: Option<string>, ghost order: seq<Path>)
      requires state == Authenticated
      modifies w
      ensures err.None? ==> IsDir(w.remote, p) && IsListing(w.remote, p, raw, order)
      ensures err.Some? ==> raw == []
      ensures w.remote == old(w.remote) && w.local == old(w.local) && w.calls == old(w.calls)
      ensures w.trace == old(w.trace) + [Event(ListDir(p), OutcomeOf(err))]
    {
      var ok: bool := *;
      var msg: string := *;
      raw, order := [], [];
      if ok && IsDir(w.remote, p) {
        err := None;
        raw, order := Enumerate(w.remote, Children(w.remote, p));
      } else {
        err := Some(msg);
      }
      w.trace := w.trace + [Event(ListDir(p), OutcomeOf(err))];
    }

    /** `conn.MakeDir(p)`. */
    method MakeDir(p: Path) returns (err: Option<string>)
      requires state == Authenticated
      modifies w
      ensures err.None? ==> CanMakeDir(old(w.remote), p) && w.remote == old(w.remote)[p := Folder]
      ensures err.Some? ==> w.remote == old(w.remote)
      ensures w.local == old(w.local) && w.calls == old(w.calls)
      ensures w.trace == old(w.trace) + [Event(Act.MakeDir(p), OutcomeOf(err))]
    {
      var ok: bool := *;
      var msg: string := *;
      if ok && CanMakeDir(w.remote, p) {
        err := None;
        w.remote := w.remote[p := Folder];
      } else {
        err := Some(msg);
      }
      w.trace := w.trace + [Event(Act.MakeDir(p), OutcomeOf(err))];
    }

    /** `conn.Stor(p, reader)` with the bytes of the open local `src`; a
        directory cannot be read, and a failed transfer may leave a prefix. */
    method Stor(p: Path, src: Node) returns (err: Option<string>)
      requires state == Authenticated
      modifies w
      ensures err.None? ==> src.File? && CanStore(old(w.remote), p) && w.remote == old(w.remote)[p := src]
      ensures err.Some? ==> w.remote == old(w.remote) ||
                            (src.File? && CanStore(old(w.remote), p) &&
                             exists n :: 0 <= n <= |src.data| && w.remote == old(w.remote)[p := File(src.data[..n])])
      ensures w.local == old(w.local) && w.calls == old(w.calls)
      ensures w.trace == old(w.trace) + [Event(Act.Stor(p), OutcomeOf(err))]
    {
      var ok: bool := *;
      var partial: bool := *;
      var msg: string := *;
      if src.File? && CanStore(w.remote, p) {
        if ok {
          err := None;
          w.remote := w.remote[p := src];
        } else {
          err := Some(msg);
          if partial {
            var n: int := *;
            var cut := if 0 <= n <= |src.data| then n else |src.data|;
            w.remote := w.remote[p := File(src.data[..cut])];
          }
        }
      } else {
        err := Some(msg);
      }
      w.trace := w.trace + [Event(Act.Stor(p), OutcomeOf(err))];
    }

    /** `conn.Retr(p)`: the bytes of the remote file. */
    method Retr(p: Path) returns (data: seq<byte>, err: Option<string>)
      requires state == Authenticated
      modifies w
      ensures err.None? ==> IsFile(w.remote, p) && data == w.remote[p].data
      ensures w.remote == old(w.remote) && w.local == old(w.local) && w.calls == old(w.calls)
      ensures w.trace == old(w.trace) + [Event(Act.Retr(p), OutcomeOf(err))]
    {
      var ok: bool := *;
      var msg: string := *;
      data := [];
      if ok && IsFile(w.remote, p) {
        err := None;
        data := w.remote[p].data;
      } else {
        err := Some(msg);
      }
      w.trace := w.trace + [Event(Act.Retr(p), OutcomeOf(err))];
    }

    /** `conn.Delete(p)`: removes a file, never a directory. */
    method Delete(p: Path) returns (err: Option<string>)
      requires state == Authenticated
      modifies w
      ensures err.None? ==> IsFile(old(w.remote), p) && w.remote == old(w.remote) - {p}
      ensures err.Some? ==> w.remote == old(w.remote)
      ensures w.local == old(w.local) && w.calls == old(w.calls)
      ensures w.trace == old(w.trace) + [Event(Act.Delete(p), OutcomeOf(err))]
    {
      var ok: bool := *;
      var msg: string := *;
      if ok && IsFile(w.remote, p) {
        err := None;
        w.remote := w.remote - {p};
      } else {
        err := Some(msg);
      }
      w.trace := w.trace + [Event(Act.Delete(p), OutcomeOf(err))];
    }

    /** `conn.RemoveDir(p)`: removes an empty directory only. */
    method RemoveDir(p: Path) returns (err: Option<string>)
      requires state == Authenticated
      modifies w
      ensures err.None? ==> p in old(w.remote) && old(w.remote)[p].Folder? && Children(old(w.remote), p) == {}
      ensures err.None? ==> w.remote == old(w.remote) - {p}
      ensures err.Some? ==> w.remote == old(w.remote)
      ensures w.local == old(w.local) && w.calls == old(w.calls)
      ensures w.trace == old(w.trace) + [Event(Act.RemoveDir(p), OutcomeOf(err))]
    {
      var ok: bool := *;
      var msg: string := *;
      if ok && p in w.remote && w.remote[p].Folder? && Children(w.remote, p) == {} {
        err := None;
        w.remote := w.remote - {p};
      } else {
        err := Some(msg);
      }
      w.trace := w.trace + [Event(Act.RemoveDir(p), OutcomeOf(err))];
    }

    /** `conn.Rename(a, b)`: moves a file, or a directory with everything
        below it. */
    method Rename(a: Path, b: Path) returns (err: Option<string>)
      requires state == Authenticated
      modifies w
      ensures err.None? ==> CanRename(old(w.remote), a, b) && w.remote == Renamed(old(w.remote), a, b)
      ensures err.Some? ==> w.remote == old(w.remote)
      ensures w.local == old(w.local) && w.calls == old(w.calls)
      ensures w.trace == old(w.trace) + [Event(Act.Rename(a, b), OutcomeOf(err))]
    {
      var ok: bool := *;
      var msg: string := *;
      if ok && CanRename(w.remote, a, b) {
        err := None;
        w.remote := Renamed(w.remote, a, b);
      } else {
        err := Some(msg);
      }
      w.trace := w.trace + [Event(Act.Rename(a, b), OutcomeOf(err))];
    }
  }
}
