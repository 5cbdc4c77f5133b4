/** The `c64u fs` subcommands `ls`, `upload`, `rm`, `mv` and `cp`: each
    runs the FTP operations of the API client against the world, reacts to
    their errors, and prints through the formatter. A command's output is
    the sequence of records it prints; `Error` ends it with `Exit(1)`.
    The ghost `log` a command returns is what it appended to `w.calls`. */
module FsCommands {
  import opened TextUtil
  import GoPath
  import opened Remote
  import opened FtpApi
  import opened Output

  // ---------------------------------------------------------------------
  // fs ls

  /** The optional argument, "/" when it is absent. */
  function LsPath(args: seq<string>): (path: string)
    requires |args| <= 1
    ensures |args| == 0 ==> path == "/"
    ensures |args| == 1 ==> path == args[0]
  {
    if |args| > 0 then args[0] else "/"
  }

  const LsHeaders: seq<string> := ["", "Name", "Type", "Size"]

  /** The table row of one entry: icon, name, type and size, where a
      directory shows "-" for its size. */
  function EntryRow(e: FileEntry): seq<string>
  {
    if e.isDir then ["📁", e.name, "dir", "-"] else ["📄", e.name, "file", Itoa(e.size)]
  }

  /** The row loop of `fs ls`. */
  method LsRows(entries: seq<FileEntry>) returns (rows: seq<seq<string>>)
    ensures |rows| == |entries|
    ensures forall i :: 0 <= i < |entries| ==> rows[i] == EntryRow(entries[i])
  {
    rows := [];
    for i := 0 to |entries|
      invariant |rows| == i
      invariant forall k :: 0 <= k < i ==> rows[k] == EntryRow(entries[k])
    {
      var entry := entries[i];
      var icon := "📄";
      var typeStr := "file";
      var size := Itoa(entry.size);
      if entry.isDir {
        icon := "📁";
        typeStr := "dir";
        size := "-";
      }
      rows := rows + [[icon, entry.name, typeStr, size]];
    }
  }

  /** A row has a cell for every column; its type cell says "dir" exactly
      for directories, and its size cell reads back as the entry's size
      for files and is "-" for directories. */
  lemma EntryRowSpec(e: FileEntry)
    ensures |EntryRow(e)| == |LsHeaders|
    ensures EntryRow(e)[1] == e.name
    ensures EntryRow(e)[2] == "dir" <==> e.isDir
    ensures e.isDir ==> EntryRow(e)[3] == "-"
    ensures !e.isDir ==> Atoi(EntryRow(e)[3]) == Some(e.size as int)
  {
    if !e.isDir {
      ItoaRoundTrip(e.size);
    }
  }

  /** How `encoding/json` writes a `FileEntry`, whose fields carry no tags. */
  function EntryJson(e: FileEntry): JsonValue
  {
    JObj(map["Name" := JStr(e.name), "Size" := JNum(e.size), "IsDir" := JBool(e.isDir), "Type" := JStr(e.kind)])
  }

  const EntryKeys: set<string> := {"Name", "Size", "IsDir", "Type"}

  /** The JSON listing: one object per entry, in order, with exactly the
      four exported fields of `FileEntry`. */
  function EntriesJson(entries: seq<FileEntry>): (v: JsonValue)
    ensures v.JArr? && |v.items| == |entries|
    ensures forall i :: 0 <= i < |entries| ==> v.items[i].JObj? && v.items[i].fields.Keys == EntryKeys
    ensures forall i :: 0 <= i < |entries| ==>
              && v.items[i].JObj? && EntryKeys <= v.items[i].fields.Keys
              && v.items[i].fields["Name"] == JStr(entries[i].name)
              && v.items[i].fields["Size"] == JNum(entries[i].size)
              && v.items[i].fields["IsDir"] == JBool(entries[i].isDir)
              && v.items[i].fields["Type"] == JStr(entries[i].kind)
  {
    JArr(seq(|entries|, i requires 0 <= i < |entries| => EntryJson(entries[i])))
  }

  /** For entries as `FTPList` builds them, an object says `"IsDir": true`
      exactly when it says `"Type": "dir"`. */
  lemma ListingJsonDirs(entries: seq<FileEntry>)
    requires forall i :: 0 <= i < |entries| ==> (entries[i].kind == "dir" <==> entries[i].isDir)
    ensures var v := EntriesJson(entries);
            forall i :: 0 <= i < |v.items| ==>
              v.items[i].JObj? && EntryKeys <= v.items[i].fields.Keys &&
              (v.items[i].fields["IsDir"] == JBool(true) <==> v.items[i].fields["Type"] == JStr("dir"))
  {
  }

  /** What `fs ls` prints for a listing `entries` of `path`, or for the
      listing error `err`. */
  function LsOutput(f: Formatter, path: string, entries: seq<FileEntry>, rows: seq<seq<string>>, err: Option<string>): seq<Out>
  {
    if err.Some? then Error(f, "Failed to list directory", [err.value])
    else if |entries| == 0 then Info(f, "Directory is empty: " + path)
    else if f.mode.ModeJson? then PrintData(f, DOther(EntriesJson(entries)))
    else [Heading("📁 " + path), Stdout("")] + Table(f, LsHeaders, rows)
  }

  /** `fs ls [path]`; the tool's `jsonOut` flag is the formatter's mode. */
  method Ls(c: Client, f: Formatter, w: World, args: seq<string>) returns (out: seq<Out>, ghost listed: seq<FileEntry>, ghost err: Option<string>)
    requires |args| <= 1
    modifies w
    ensures w.calls == old(w.calls) + [Call(ListOp(LsPath(args)), err)]
    ensures err.Some? ==> listed == []
    ensures err.None? ==> EntriesOf(w.remote, LsPath(args), listed)
    ensures w.remote == old(w.remote) && w.local == old(w.local)
    ensures out == LsOutput(f, LsPath(args), listed, seq(|listed|, i requires 0 <= i < |listed| => EntryRow(listed[i])), err)
  {
    var path := "/";
    if |args| > 0 {
      path := args[0];
    }
    var entries, e, _ := FtpList(c, w, path);
    listed, err := entries, e;
    var rows := LsRows(entries);
    assert rows == seq(|listed|, i requires 0 <= i < |listed| => EntryRow(listed[i]));
    if e.Some? {
      out := Error(f, "Failed to list directory", [e.value]);
      return;
    }
    if |entries| == 0 {
      out := Info(f, "Directory is empty: " + path);
      return;
    }
    if f.mode.ModeJson? {
      out := PrintData(f, DOther(EntriesJson(entries)));
      return;
    }
    var table := PrintTable(f, LsHeaders, rows);
    out := [Heading("📁 " + path), Stdout("")] + table;
  }

  /** `fs ls` ends the process exactly when the listing failed. */
  lemma LsExits(f: Formatter, path: string, entries: seq<FileEntry>, rows: seq<seq<string>>, err: Option<string>)
    ensures Exits(LsOutput(f, path, entries, rows, err)) <==> err.Some?
  {
    var out := LsOutput(f, path, entries, rows, err);
    if err.Some? {
      assert out[|out| - 1].Exit?;
    } else if |entries| == 0 || f.mode.ModeJson? {
      QuietEnds(out, []);
      assert out + [] == out;
    } else {
      var table := TableText(LsHeaders, rows);
      TableTextShape(LsHeaders, rows);
      QuietEnds([Heading("📁 " + path), Stdout("")], table);
    }
  }

  /** A text listing prints the heading, a blank line, the header and
      separator lines, and then the line of each entry's row. */
  lemma LsTextLines(f: Formatter, path: string, entries: seq<FileEntry>, rows: seq<seq<string>>)
    requires f.mode.ModeText? && |entries| > 0
    ensures var out := LsOutput(f, path, entries, rows, None);
            && |out| == |rows| + 4
            && out[0] == Heading("📁 " + path) && out[1] == Stdout("")
            && forall i :: 0 <= i < |rows| ==> out[i + 4] == Stdout(RowLine(rows[i], Widths(LsHeaders, rows)))
  {
    LsOutputText(f, path, entries, rows);
    TableTextShape(LsHeaders, rows);
    UnderHeading(Heading("📁 " + path), TableText(LsHeaders, rows), rows, Widths(LsHeaders, rows));
  }

  lemma UnderHeading(heading: Out, table: seq<Out>, rows: seq<seq<string>>, widths: seq<nat>)
    requires |table| == |rows| + 2
    requires forall j :: 0 <= j < |rows| ==> table[j + 2] == Stdout(RowLine(rows[j], widths))
    ensures var out := [heading, Stdout("")] + table;
            && |out| == |rows| + 4 && out[0] == heading && out[1] == Stdout("")
            && forall i :: 0 <= i < |rows| ==> out[i + 4] == Stdout(RowLine(rows[i], widths))
  {
    var out := [heading, Stdout("")] + table;
    forall i | 0 <= i < |rows| ensures out[i + 4] == Stdout(RowLine(rows[i], widths)) {
      assert out[i + 4] == table[i + 2];
    }
  }

  lemma LsOutputText(f: Formatter, path: string, entries: seq<FileEntry>, rows: seq<seq<string>>)
    requires f.mode.ModeText? && |entries| > 0
    ensures LsOutput(f, path, entries, rows, None) == [Heading("📁 " + path), Stdout("")] + TableText(LsHeaders, rows)
  {
    assert Table(f, LsHeaders, rows) == TableText(LsHeaders, rows);
  }

  // ---------------------------------------------------------------------
  // fs upload

  function UploadedData(localPath: string, remotePath: string, size: nat): map<string, JsonValue>
  {
    map["local" := JStr(localPath), "remote" := JStr(remotePath), "size" := JStr(Itoa(size) + " bytes")]
  }

  /** `fs upload <local-path> <remote-path>`: a missing local path or a
      local directory is rejected before any remote request. */
  method Upload(c: Client, f: Formatter, w: World, localPath: Path, remotePath: Path) returns (out: seq<Out>, ghost log: seq<Call>)
    modifies w
    ensures w.calls == old(w.calls) + log
    ensures 1 <= |log| <= 2 && log[0].op == StatOp(localPath)
    ensures |log| == 1 <==> log[0].err.Some? || !IsFile(old(w.local), localPath)
    ensures |log| == 1 ==> w.remote == old(w.remote) && w.trace == old(w.trace)
    ensures |log| == 1 && log[0].err.Some? ==> out == Error(f, "Local file not found", [log[0].err.value])
    ensures |log| == 1 && log[0].err.None? ==>
              out == Error(f, "Directory upload not yet supported", ["Please upload files individually"])
    ensures |log| == 2 ==> log[1].op == UploadOp(localPath, remotePath)
    ensures |log| == 2 && log[1].err.Some? ==>
              out == Info(f, "Uploading " + localPath + " to " + remotePath + "...") + Error(f, "Upload failed", [log[1].err.value])
    ensures |log| == 2 && log[1].err.None? ==>
              && out == Info(f, "Uploading " + localPath + " to " + remotePath + "...") +
                        Success(f, "Uploaded " + GoPath.Base(localPath),
                                Some(UploadedData(localPath, remotePath, |old(w.local)[localPath].data|)))
              && remotePath in w.remote && w.remote[remotePath] == old(w.local)[localPath]
    ensures w.local == old(w.local)
  {
    var info, err := w.Stat(localPath);
    log := [Call(StatOp(localPath), err)];
    if err.Some? {
      out := Error(f, "Local file not found", [err.value]);
      return;
    }
    if info.Folder? {
      out := Error(f, "Directory upload not yet supported", ["Please upload files individually"]);
      return;
    }
    out := Info(f, "Uploading " + localPath + " to " + remotePath + "...");
    var e := Store(c, w, localPath, remotePath);
    log := log + [Call(UploadOp(localPath, remotePath), e)];
    if e.Some? {
      out := out + Error(f, "Upload failed", [e.value]);
      return;
    }
    out := out + Success(f, "Uploaded " + GoPath.Base(localPath), Some(UploadedData(localPath, remotePath, |info.data|)));
  }

  // ---------------------------------------------------------------------
  // fs rm

  /** A file delete, as `fs rm` sees it. */
  method Unlink(c: Client, w: World, path: Path) returns (err: Option<string>)
    modifies w
    ensures w.calls == old(w.calls) + [Call(DeleteOp(path), err)]
    ensures err.None? ==> IsFile(old(w.remote), path) && w.remote == old(w.remote) - {path}
    ensures err.Some? ==> w.remote == old(w.remote)
    ensures w.local == old(w.local)
  {
    ghost var seg: seq<Event>;
    err, seg := FtpDelete(c, w, path);
  }

  /** A directory delete, as `fs rm` sees it. */
  method Rmdir(c: Client, w: World, path: Path) returns (err: Option<string>)
    modifies w
    ensures w.calls == old(w.calls) + [Call(DeleteDirOp(path), err)]
    ensures err.None? ==> && path in old(w.remote) && old(w.remote)[path].Folder?
                          && Children(old(w.remote), path) == {} && w.remote == old(w.remote) - {path}
    ensures err.Some? ==> w.remote == old(w.remote)
    ensures w.local == old(w.local)
  {
    ghost var seg: seq<Event>;
    err, seg := FtpDeleteDir(c, w, path);
  }

  /** `fs rm <path>`: a file delete, then, if that failed, a directory
      delete; only the second error is reported. */
  method Rm(c: Client, f: Formatter, w: World, path: Path) returns (out: seq<Out>, ghost log: seq<Call>)
    modifies w
    ensures w.calls == old(w.calls) + log
    ensures 1 <= |log| <= 2 && log[0].op == DeleteOp(path)
    ensures |log| == 2 <==> log[0].err.Some?
    ensures |log| == 2 ==> log[1].op == DeleteDirOp(path)
    ensures log[|log| - 1].err.None? ==>
              && out == Success(f, "Deleted", Some(map["path" := JStr(path)]))
              && path in old(w.remote) && w.remote == old(w.remote) - {path}
              && (old(w.remote)[path].File? || Children(old(w.remote), path) == {})
    ensures log[|log| - 1].err.Some? ==>
              out == Error(f, "Failed to delete", [log[|log| - 1].err.value]) && w.remote == old(w.remote)
    ensures w.local == old(w.local)
  {
    var err := Unlink(c, w, path);
    log := [Call(DeleteOp(path), err)];
    if err.Some? {
      err := Rmdir(c, w, path);
      log := log + [Call(DeleteDirOp(path), err)];
      if err.Some? {
        out := Error(f, "Failed to delete", [err.value]);
        return;
      }
    }
    out := Success(f, "Deleted", Some(map["path" := JStr(path)]));
  }

  // ---------------------------------------------------------------------
  // fs mv

  /** `fs mv <source> <destination>`: one rename. */
  method Mv(c: Client, f: Formatter, w: World, oldPath: Path, newPath: Path) returns (out: seq<Out>, ghost err: Option<string>)
    modifies w
    ensures w.calls == old(w.calls) + [Call(RenameOp(oldPath, newPath), err)]
    ensures err.None? ==>
              && out == Success(f, "Moved/renamed", Some(map["from" := JStr(oldPath), "to" := JStr(newPath)]))
              && CanRename(old(w.remote), oldPath, newPath) && w.remote == Renamed(old(w.remote), oldPath, newPath)
    ensures err.Some? ==> out == Error(f, "Failed to move/rename", [err.value]) && w.remote == old(w.remote)
    ensures w.local == old(w.local)
  {
    var e, _ := FtpRename(c, w, oldPath, newPath);
    err := e;
    if e.Some? {
      out := Error(f, "Failed to move/rename", [e.value]);
      return;
    }
    out := Success(f, "Moved/renamed", Some(map["from" := JStr(oldPath), "to" := JStr(newPath)]));
  }

  // ---------------------------------------------------------------------
  // fs cp

  const CopyContexts: seq<string> := ["Failed to create temp file", "Failed to download source", "Failed to upload to destination"]

  function CopiedData(source: string, dest: string): map<string, JsonValue>
  {
    map["from" := JStr(source), "to" := JStr(dest)]
  }

  /** The calls of a copy: temp file, download into it, upload from it,
      each only after the previous one succeeded. */
  ghost predicate CopySteps(log: seq<Call>, source: Path, dest: Path, tmpName: Path)
  {
    && |log| >= 1 && log[0].op == CreateTempOp(tmpName)
    && (log[0].err.None? ==> |log| >= 2 && log[1].op == DownloadOp(source, tmpName))
    && (|log| >= 2 && log[1].err.None? ==> |log| >= 3 && log[2].op == UploadOp(tmpName, dest))
  }

  /** The step whose failure decides the output, if any. */
  ghost function CopyFailure(log: seq<Call>): (r: nat)
    requires |log| >= 1
    ensures r <= 3
    ensures r < 3 ==> r < |log| && log[r].err.Some?
  {
    if log[0].err.Some? then 0
    else if |log| >= 2 && log[1].err.Some? then 1
    else if |log| >= 3 && log[2].err.Some? then 2
    else 3
  }

  ghost function CopyOutput(f: Formatter, log: seq<Call>, source: Path, dest: Path): seq<Out>
    requires |log| >= 1
  {
    var k := CopyFailure(log);
    if k == 0 then Error(f, CopyContexts[0], [log[0].err.value])
    else if k < 3 then Info(f, "Copying file...") + Error(f, CopyContexts[k], [log[k].err.value])
    else Info(f, "Copying file...") + Success(f, "File copied", Some(CopiedData(source, dest)))
  }

  /** The temp file was created and a later call removed it. */
  ghost predicate RemovesTemp(log: seq<Call>, tmpName: Path)
  {
    exists i :: 0 < i < |log| && log[i].op == RemoveOp(tmpName)
  }

  /** The download of `source` into the temp file, as `fs cp` sees it. */
  method Fetch(c: Client, w: World, source: Path, tmpName: Path) returns (err: Option<string>)
    requires tmpName in w.local
    modifies w
    ensures w.calls == old(w.calls) + [Call(DownloadOp(source, tmpName), err)]
    ensures tmpName in w.local
    ensures err.None? ==> IsFile(old(w.remote), source) && w.local[tmpName] == old(w.remote)[source]
    ensures w.remote == old(w.remote)
  {
    ghost var seg: seq<Event>;
    err, seg := FtpDownload(c, w, source, tmpName);
  }

  /** An upload of the local file `tmpName` to `dest`, as the commands
      see it. */
  method Store(c: Client, w: World, tmpName: Path, dest: Path) returns (err: Option<string>)
    modifies w
    ensures w.calls == old(w.calls) + [Call(UploadOp(tmpName, dest), err)]
    ensures err.None? ==> tmpName in w.local && dest in w.remote && w.remote[dest] == w.local[tmpName]
    ensures w.local == old(w.local)
  {
    ghost var seg: seq<Event>;
    err, seg := FtpUpload(c, w, tmpName, dest);
  }

  /** The download of `source` into the temp file and the upload of the
      temp file to `dest`, the second only after the first succeeded. */
  method Transfer(c: Client, w: World, source: Path, dest: Path, tmpName: Path) returns (err: Option<string>, failed: nat, ghost steps: seq<Call>)
    requires tmpName in w.local
    modifies w
    ensures w.calls == old(w.calls) + steps
    ensures 1 <= |steps| <= 2 && steps[0].op == DownloadOp(source, tmpName)
    ensures |steps| == 2 <==> steps[0].err.None?
    ensures |steps| == 2 ==> steps[1].op == UploadOp(tmpName, dest)
    ensures err == steps[|steps| - 1].err
    ensures failed == (if err.None? then 3 else |steps|)
    ensures tmpName in w.local
    ensures err.None? ==> IsFile(old(w.remote), source) && dest in w.remote && w.remote[dest] == old(w.remote)[source]
  {
    err := Fetch(c, w, source, tmpName);
    steps := [Call(DownloadOp(source, tmpName), err)];
    failed := 1;
    if err.Some? {
      return;
    }
    err := Store(c, w, tmpName, dest);
    steps := steps + [Call(UploadOp(tmpName, dest), err)];
    failed := if err.None? then 3 else 2;
  }

  lemma CallsAppend(a: seq<Call>, b: seq<Call>, c: seq<Call>, d: seq<Call>)
    ensures a + b + c + d == a + (b + c + d)
  {
  }

  lemma CopyLog(create: Call, steps: seq<Call>, tail: seq<Call>, source: Path, dest: Path, tmpName: Path)
    requires create == Call(CreateTempOp(tmpName), None)
    requires 1 <= |steps| <= 2 && steps[0].op == DownloadOp(source, tmpName)
    requires |steps| == 2 <==> steps[0].err.None?
    requires |steps| == 2 ==> steps[1].op == UploadOp(tmpName, dest)
    ensures var log := [create] + steps + tail;
            && CopySteps(log, source, dest, tmpName)
            && CopyFailure(log) == (if steps[|steps| - 1].err.None? then 3 else |steps|)
            && (tail == [] ==> !RemovesTemp(log, tmpName))
  {
    var log := [create] + steps + tail;
    assert log[1] == steps[0];
    assert |steps| == 2 ==> log[2] == steps[1];
    if tail == [] {
      forall i | 0 < i < |log| ensures log[i].op != RemoveOp(tmpName) {
        assert log[i] == steps[i - 1];
      }
    }
  }

  /** `fs cp <source> <destination>` as written: the removal of the temp
      file is deferred, and a deferred call does not run when `Error` ends
      the process with `os.Exit`. A failed download or upload therefore
      leaves the temp file behind. `tmpName` is the name the system picks
      for the temp file. */
  method CpAsWritten(c: Client, f: Formatter, w: World, source: Path, dest: Path, tmpName: Path) returns (out: seq<Out>, ghost log: seq<Call>)
    modifies w
    ensures w.calls == old(w.calls) + log
    ensures CopySteps(log, source, dest, tmpName)
    ensures out == CopyOutput(f, log, source, dest)
    ensures CopyFailure(log) == 0 ==> |log| == 1 && w.local == old(w.local) && w.remote == old(w.remote)
    ensures 0 < CopyFailure(log) < 3 ==> !RemovesTemp(log, tmpName) && tmpName in w.local
    ensures CopyFailure(log) == 3 ==>
              && |log| == 4 && log[3].op == RemoveOp(tmpName)
              && IsFile(old(w.remote), source) && dest in w.remote && w.remote[dest] == old(w.remote)[source]
  {
    var err := w.CreateTemp(tmpName);
    log := [Call(CreateTempOp(tmpName), err)];
    if err.Some? {
      out := Error(f, CopyContexts[0], [err.value]);
      return;
    }
    out := Info(f, "Copying file...");
    var failed;
    ghost var steps;
    err, failed, steps := Transfer(c, w, source, dest, tmpName);
    if failed < 3 {
      ErrorEnds(out, f, CopyContexts[failed], [err.value]);
      out := out + Error(f, CopyContexts[failed], [err.value]);
    } else {
      QuietEnds(out, Success(f, "File copied", Some(CopiedData(source, dest))));
      out := out + Success(f, "File copied", Some(CopiedData(source, dest)));
    }
    // the deferred removal runs when the command returns, not after os.Exit
    ghost var tail: seq<Call> := [];
    if !Exits(out) {
      var removed := w.Remove(tmpName);
      tail := [Call(RemoveOp(tmpName), removed)];
    }
    CopyLog(log[0], steps, tail, source, dest, tmpName);
    CallsAppend(old(w.calls), log, steps, tail);
    log := log + steps + tail;
  }

  /** `fs cp` with the temp file removed before an error is reported, so
      that it goes away on every path once it exists. */
  method Cp(c: Client, f: Formatter, w: World, source: Path, dest: Path, tmpName: Path) returns (out: seq<Out>, ghost log: seq<Call>)
    modifies w
    ensures w.calls == old(w.calls) + log
    ensures CopySteps(log, source, dest, tmpName)
    ensures out == CopyOutput(f, log, source, dest)
    ensures CopyFailure(log) == 0 ==> |log| == 1 && w.local == old(w.local) && w.remote == old(w.remote)
    ensures log[0].err.None? ==>
              && RemovesTemp(log, tmpName) && log[|log| - 1].op == RemoveOp(tmpName)
              && (log[|log| - 1].err.None? ==> tmpName !in w.local)
    ensures CopyFailure(log) == 3 ==>
              IsFile(old(w.remote), source) && dest in w.remote && w.remote[dest] == old(w.remote)[source]
  {
    var err := w.CreateTemp(tmpName);
    log := [Call(CreateTempOp(tmpName), err)];
    if err.Some? {
      out := Error(f, CopyContexts[0], [err.value]);
      return;
    }
    out := Info(f, "Copying file...");
    var failed;
    ghost var steps;
    err, failed, steps := Transfer(c, w, source, dest, tmpName);
    var removed := w.Remove(tmpName);
    ghost var tail := [Call(RemoveOp(tmpName), removed)];
    CopyLog(log[0], steps, tail, source, dest, tmpName);
    CallsAppend(old(w.calls), log, steps, tail);
    log := log + steps + tail;
    assert log[|log| - 1] == tail[0];
    if failed < 3 {
      out := out + Error(f, CopyContexts[failed], [err.value]);
    } else {
      out := out + Success(f, "File copied", Some(CopiedData(source, dest)));
    }
  }
}
