# c64u filesystem layer — a Dafny model

This project models the file-handling core of the `c64u` command-line tool,
which talks to a C64 Ultimate device. The model covers four parts:

- **The FTP client layer** of the API package (`FtpApi`, over the environment in `Remote`).
  It derives the FTP address from the control-API base URL. It opens an anonymous
  session per operation and quits it on every path. It lists, uploads, downloads,
  creates directories (one level, or every prefix with `ftpMkdirAll`), deletes
  files and directories, and renames. It also builds the parameter maps for
  disk-image creation (D64, D71, D81, DNP).
- **The `fs` subcommands** `ls`, `upload`, `rm`, `mv` and `cp` (`FsCommands`).
  Each one is a sequence of client calls with early exits.
- **The output formatter** (`Output`). It covers text or JSON mode, success, error
  and info messages, and the table printer with its column widths, separator line
  and JSON rows.
- **The section parser and title search** of the reference-manual search script
  (`SearchRef`).

The device's FTP server is an abstract file tree: a map from path to file bytes
or folder. The local file system is a tree of the same kind. Both live in the
`Remote.World` class. Every remote request and local file operation may fail
nondeterministically. It can only succeed when its semantic condition holds:
a delete only removes a file, and a directory removal only removes an empty
directory. An FTP connection is the `Remote.Session` class, a state machine
`Unopened → Dialed → Authenticated → Closed`. Every primitive appends itself and
its outcome to a ghost trace. The operation contracts are statements about that
trace: call order, stop at the first failure, quit last on every path once dialed.
The command contracts use a second ghost log of API-level calls. Printing is a
returned sequence of output records. `Exit(1)` marks where `Error` ends the process.

Go's `len` counts bytes, so column widths use the UTF-8 byte length of each cell.
`%-*s` pads by character count, so padding uses the character count.

Behaviour of the code worth noting:
- Remote parents are created before an upload only when the parent is neither `.` nor `/`.
- `FileEntry` carries a `Type` string besides `IsDir`.
- The CLI's `Error` ends the process with `os.Exit(1)`.
- The temporary file of `fs cp` is left behind when the copy fails (see Findings).

## Model

| member | source | states |
|---|---|---|
| `TextUtil.Strip` | scripts/search_ref.py:18 | Python `str.strip()`: the result is the slice after the leading whitespace, starts and ends with non-whitespace, and only whitespace is cut on either side |
| `TextUtil.SubstringOccurs` | scripts/search_ref.py:50 | Python `in` on strings holds exactly when the needle occurs at some offset of the haystack |
| `TextUtil.ItoaRoundTrip` | tools/c64u/internal/api/files.go:30 | the decimal text `strconv.Itoa` produces reads back as the same integer |
| `GoPath.SplitJoin` | tools/c64u/internal/api/files.go:228 | `strings.Split` on "/" gives back the separator-free pieces that were joined |
| `GoPath.TrimPrefixSpec` | tools/c64u/internal/api/files.go:100-101 | `strings.TrimPrefix` removes the prefix when present and changes nothing otherwise |
| `GoPath.CleanPlainRelative` | tools/c64u/internal/api/files.go:234 | `filepath.Join`'s cleaning leaves a relative path of plain elements unchanged |
| `Remote.Enumerate` | tools/c64u/internal/api/files.go:128 | the server lists every entry of a directory exactly once, in an order of its own |
| `Remote.Renamed` | tools/c64u/internal/api/files.go:278 | after a rename, the new path holds what the old path held, the old path is gone, every entry below the old path reappears below the new one, and every entry outside the moved subtree is unchanged |
| `Remote.World.Open` | tools/c64u/internal/api/files.go:159 | `os.Open` succeeds only on an existing file or directory and changes nothing |
| `Remote.World.MkdirAll` | tools/c64u/internal/api/files.go:194 | `os.MkdirAll` succeeds only when the path is not a file, and then the path is a directory |
| `Remote.World.Create` | tools/c64u/internal/api/files.go:198 | `os.Create` succeeds only on a non-directory and leaves an empty file |
| `Remote.World.Write` | tools/c64u/internal/api/files.go:204 | `io.Copy` into the file writes all the data, or a prefix of it on failure |
| `Remote.World.Stat` | tools/c64u/cmd/c64u/fs.go:108 | `os.Stat` reports the local node when it succeeds |
| `Remote.World.CreateTemp` | tools/c64u/cmd/c64u/fs.go:277 | `os.CreateTemp` creates a fresh empty file or changes nothing |
| `Remote.World.Remove` | tools/c64u/cmd/c64u/fs.go:284 | `os.Remove` removes the existing path or changes nothing |
| `Remote.Session.Dial` | tools/c64u/internal/api/files.go:106 | a dial moves an unopened session to dialed only on success |
| `Remote.Session.Login` | tools/c64u/internal/api/files.go:112 | a login moves a dialed session to authenticated only on success |
| `Remote.Session.Quit` | tools/c64u/internal/api/files.go:113 | quitting closes a dialed or authenticated session |
| `Remote.Session.List` | tools/c64u/internal/api/files.go:128 | a successful listing names every child of the directory exactly once |
| `Remote.Session.MakeDir` | tools/c64u/internal/api/files.go:219 | a remote mkdir adds exactly one folder, under an existing directory, or changes nothing |
| `Remote.Session.Stor` | tools/c64u/internal/api/files.go:171 | a store writes the opened file's bytes at the path; a failed store may leave a prefix |
| `Remote.Session.Retr` | tools/c64u/internal/api/files.go:186 | a successful retrieval returns exactly the remote file's bytes and changes nothing |
| `Remote.Session.Delete` | tools/c64u/internal/api/files.go:248 | a remote delete removes a file, never a directory, or changes nothing |
| `Remote.Session.RemoveDir` | tools/c64u/internal/api/files.go:263 | a remote rmdir removes only an empty directory, or changes nothing |
| `Remote.RenameListings` | tools/c64u/internal/api/files.go:278 | after a rename, listing the new parent shows the new name and listing the old parent no longer shows the old name |
| `Remote.Session.Rename` | tools/c64u/internal/api/files.go:278 | a rename moves a file or a whole subtree, or changes nothing |
| `FtpApi.DiskNameParam` | tools/c64u/internal/api/files.go:33-35 | `diskname` is present exactly when the name is non-empty, and then it is the name |
| `FtpApi.FilesCreateD64` | tools/c64u/internal/api/files.go:26-39 | a PUT on `:create_d64`; `tracks` is present exactly when tracks > 0 and reads back as tracks; `diskname` is present exactly when non-empty; no other key |
| `FtpApi.FilesCreateD71` | tools/c64u/internal/api/files.go:44-53 | a PUT on `:create_d71` whose only possible parameter is `diskname` |
| `FtpApi.FilesCreateD81` | tools/c64u/internal/api/files.go:58-67 | a PUT on `:create_d81` whose only possible parameter is `diskname` |
| `FtpApi.FilesCreateDNP` | tools/c64u/internal/api/files.go:73-84 | a PUT on `:create_dnp` that always carries `tracks`, whatever its value, and `diskname` only when non-empty |
| `FtpApi.FtpHostSpec` | tools/c64u/internal/api/files.go:100-104 | the host is the scheme-less URL cut before its first ':' unless that ':' is the first character |
| `FtpApi.FtpAddressIgnoresPort` | tools/c64u/internal/api/files.go:100-106 | for `http://` or `https://` plus a host and any decimal port (or none), the dialled address is the host with port 21 |
| `FtpApi.QuitOnEveryPath` | tools/c64u/internal/api/files.go:126 | in every session shape, a dialed session is quit, the quit is the last event, and no earlier event is a quit |
| `FtpApi.GetFtpConn` | tools/c64u/internal/api/files.go:98-118 | a session comes back exactly when dial and anonymous login both succeeded; a rejected login is followed by a quit, and the error names the failed step |
| `FtpApi.EntriesFromListing` | tools/c64u/internal/api/files.go:133-146 | one entry per server entry, in server order: same name and size, a directory exactly when the server said folder, type "dir" exactly for directories and "file" otherwise |
| `FtpApi.FtpList` | tools/c64u/internal/api/files.go:121-149 | one session around one listing; on success the entries are the directory's children, one each, and nothing changes |
| `FtpApi.TargetsCount` | tools/c64u/internal/api/files.go:230-236 | `ftpMkdirAll` issues exactly one request per non-empty path element |
| `FtpApi.CurrentIsJoin` | tools/c64u/internal/api/files.go:229-234 | without `.`/`..` elements, `current` is the non-empty elements so far joined by "/" |
| `FtpApi.TargetsArePrefixes` | tools/c64u/internal/api/files.go:227-238 | the k-th request names "/" followed by the first k+1 non-empty elements joined by "/" |
| `FtpApi.FtpMkdirAll` | tools/c64u/internal/api/files.go:227-238 | the requests are exactly the prefix targets, in order; the result is nil whatever they report; only folders are added |
| `FtpApi.MakeParents` | tools/c64u/internal/api/files.go:164-168 | mkdir requests are sent only when the remote file's directory is neither "." nor "/", one per prefix of that directory; the remote tree only gains folders |
| `FtpApi.StoreWithParents` | tools/c64u/internal/api/files.go:165-175 | parent creation happens only when the parent is neither "." nor "/", and all of it comes before the one store |
| `FtpApi.OpenAndStore` | tools/c64u/internal/api/files.go:158-175 | the local open comes first and a failed open ends with the open error before any remote request; otherwise the parents, then the store; on success the remote file equals the local one |
| `FtpApi.FtpUpload` | tools/c64u/internal/api/files.go:152-176 | a failed local open stops before any remote request; otherwise mkdir requests, then the store; on success the remote file equals the local one; nothing else changes except created folders |
| `FtpApi.WriteLocal` | tools/c64u/internal/api/files.go:198-206 | the file is created before the bytes are copied, stopping at the first failure with that step's error; on success the local file holds the retrieved bytes; no other local entry changes |
| `FtpApi.SaveLocal` | tools/c64u/internal/api/files.go:192-208 | the local directory, file creation and write run in order up to the first failure, with that step's error |
| `FtpApi.RetrAndSave` | tools/c64u/internal/api/files.go:185-208 | the retrieval comes first and a failed retrieval leaves the local tree untouched; on success the local file equals the remote one; the remote tree never changes |
| `FtpApi.FtpDownload` | tools/c64u/internal/api/files.go:179-209 | the retrieval comes first; if it fails the local side is untouched; on success the local file equals the remote one; the remote side never changes |
| `FtpApi.FtpMkdir` | tools/c64u/internal/api/files.go:212-224 | one session, one mkdir, quit on every path; the error wraps the remote message |
| `FtpApi.FtpDelete` | tools/c64u/internal/api/files.go:241-253 | one session, one file delete, quit on every path |
| `FtpApi.FtpDeleteDir` | tools/c64u/internal/api/files.go:256-268 | one session, one empty-directory removal, quit on every path |
| `FtpApi.FtpRename` | tools/c64u/internal/api/files.go:271-283 | one session, one rename with the arguments in order, quit on every path |
| `FsCommands.LsPath` | tools/c64u/cmd/c64u/fs.go:42-45 | `ls` lists "/" when no argument is given and the argument otherwise |
| `FsCommands.LsRows` | tools/c64u/cmd/c64u/fs.go:65-83 | one row per entry, in order |
| `FsCommands.EntryRowSpec` | tools/c64u/cmd/c64u/fs.go:66-83 | a row has four cells; type is "dir" exactly for directories; a directory's size is "-" and a file's size reads back as its size |
| `FsCommands.EntriesJson` | tools/c64u/cmd/c64u/fs.go:58-59 | JSON mode prints one object per entry, in order, whose keys are exactly `Name`, `Size`, `IsDir` and `Type`, holding the entry's name, size, directory flag and type |
| `FsCommands.ListingJsonDirs` | tools/c64u/internal/api/files.go:138-144 | in the JSON of a listing, an object has `"IsDir": true` exactly when it has `"Type": "dir"` |
| `FsCommands.Ls` | tools/c64u/cmd/c64u/fs.go:41-87 | one listing call on the chosen path; its output is the error, the empty-directory info, the JSON entries or the heading and table |
| `FsCommands.LsExits` | tools/c64u/cmd/c64u/fs.go:47-56 | `ls` ends the process exactly when the listing failed; an empty listing is information, not an error |
| `FsCommands.LsTextLines` | tools/c64u/cmd/c64u/fs.go:58-86 | a text listing prints heading, blank line, header and separator, then one line per entry's row |
| `FsCommands.Upload` | tools/c64u/cmd/c64u/fs.go:103-133 | a failed stat or a local directory is rejected before any remote call; otherwise exactly one upload, with its error or success report |
| `FsCommands.Unlink` | tools/c64u/cmd/c64u/fs.go:213 | a successful delete removes exactly the file at the path; a failed one changes nothing |
| `FsCommands.Rmdir` | tools/c64u/cmd/c64u/fs.go:216 | a successful delete removes exactly the path, which was an empty folder; a failed one changes nothing |
| `FsCommands.Rm` | tools/c64u/cmd/c64u/fs.go:209-226 | file delete first; directory delete only when that failed; success if either succeeded; only the directory-delete error is reported |
| `FsCommands.Mv` | tools/c64u/cmd/c64u/fs.go:242-256 | a single rename, source then destination |
| `FsCommands.Transfer` | tools/c64u/cmd/c64u/fs.go:288-298 | upload only after a successful download; on success the destination holds the source's bytes |
| `FsCommands.CpAsWritten` | tools/c64u/cmd/c64u/fs.go:272-305 | the code as written: no remote call when the temp file cannot be created; download then upload; the temp file is removed only on success |
| `FsCommands.Cp` | tools/c64u/cmd/c64u/fs.go:272-305 | corrected copy: same steps and output, and the temp file is removed on every path once created |
| `Output.NewFormatter` | tools/c64u/internal/output/formatter.go:28-34 | JSON mode exactly when `jsonMode` is true |
| `Output.Success` | tools/c64u/internal/output/formatter.go:37-55 | never exits; JSON has success true and the message, and `data` only when non-nil; text prints the check line and then the fields only when data is non-empty |
| `Output.Error` | tools/c64u/internal/output/formatter.go:58-75 | ends with exit status 1 in both modes, and nothing before that exits; JSON has success false, message and errors; text prints one stderr line per error |
| `Output.ErrorEnds` | tools/c64u/internal/output/formatter.go:74 | whatever was printed before, an `Error` ends the process |
| `Output.PrintResponse` | tools/c64u/internal/output/formatter.go:78-85 | the process exits exactly when the response has errors; then it is `Error` with message + " failed", otherwise `Success` with the data |
| `Output.PrintData` | tools/c64u/internal/output/formatter.go:88-108 | JSON mode prints the value; text mode prints by the value's dynamic type |
| `Output.Info` | tools/c64u/internal/output/formatter.go:175-179 | output only in text mode |
| `Output.Warning` | tools/c64u/internal/output/formatter.go:182-191 | one record, never exits; stderr in text mode |
| `Output.WidthsAreMax` | tools/c64u/internal/output/formatter.go:129-139 | each width is the maximum of its header's byte length and the byte lengths of that column's cells |
| `Output.ColumnWidths` | tools/c64u/internal/output/formatter.go:128-139 | the width loops over an array compute one width per header, the column maxima |
| `Output.Separator` | tools/c64u/internal/output/formatter.go:148-151 | the separator is, per column, `widths[i]` dashes and two spaces |
| `Output.DashesAt` | tools/c64u/internal/output/formatter.go:148-150 | column i of the separator holds exactly `widths[i]` dashes followed by two spaces |
| `Output.FormatRow` | tools/c64u/internal/output/formatter.go:155-159 | a row line pads each cell that has a column, and drops extra cells |
| `Output.FormatRows` | tools/c64u/internal/output/formatter.go:154-161 | one line per row, in order |
| `Output.RowObjects` | tools/c64u/internal/output/formatter.go:114-123 | the JSON loops build one object per row, in order |
| `Output.RowObjectKeys` | tools/c64u/internal/output/formatter.go:116-121 | a row object has a header as key exactly when that header's index is below the row's length |
| `Output.RowObjectLastWins` | tools/c64u/internal/output/formatter.go:117-120 | the key `headers[i]` maps to `row[i]` when no later header has the same name |
| `Output.JsonTableShape` | tools/c64u/internal/output/formatter.go:114-124 | in JSON mode a table without rows is null; otherwise one row object per row, in order |
| `Output.PrintTable` | tools/c64u/internal/output/formatter.go:111-162 | the output is the JSON table or the text table of the headers and rows |
| `Output.TableTextShape` | tools/c64u/internal/output/formatter.go:141-161 | a text table is header line, separator line and one stdout line per row |
| `Output.ColumnsAlign` | tools/c64u/internal/output/formatter.go:141-161 | column i starts at the same offset in the header, the separator and every full row, and there holds the padded cell and two spaces |
| `SearchRef.SplitLines` | scripts/search_ref.py:17 | iterating over the file yields non-empty lines that keep their newline, and only the last may lack one |
| `SearchRef.SplitLinesJoin` | scripts/search_ref.py:17 | the lines concatenate back to the file's text |
| `SearchRef.ParseLines` | scripts/search_ref.py:14-34 | the line loop with its three variables computes the sections of the lines |
| `SearchRef.ParseFile` | scripts/search_ref.py:6-40 | a missing file gives an empty list and one stderr message; an existing file gives the sections of its lines |
| `SearchRef.NoHeaderNoSections` | scripts/search_ref.py:30 | a document without a header line has no section |
| `SearchRef.PreambleIgnored` | scripts/search_ref.py:27-28 | lines before the first header belong to no section |
| `SearchRef.SectionOfHeader` | scripts/search_ref.py:18-34 | a header and the non-header lines after it add one section: the stripped header as title, and the stripped concatenation of those lines as content |
| `SearchRef.SectionTitles` | scripts/search_ref.py:17-34 | one section per header line, in document order, titled by the stripped header |
| `SearchRef.SearchMembers` | scripts/search_ref.py:48-51 | a section is found exactly when it is in the input and its title matches |
| `SearchRef.SearchSubsequence` | scripts/search_ref.py:48-51 | the result is an order-preserving subsequence of the input |
| `SearchRef.SearchIdempotent` | scripts/search_ref.py:48-51 | searching the result again with the same term changes nothing |
| `SearchRef.EmptyTermMatchesAll` | scripts/search_ref.py:47-50 | the empty term selects every section |
| `SearchRef.SearchIgnoresCase` | scripts/search_ref.py:47 | lower-casing the term does not change the result |
| `SearchRef.TitleCaseIgnored` | scripts/search_ref.py:50 | two titles that differ only in ASCII case match the same terms |
| `SearchRef.SearchIgnoresTitleCase` | scripts/search_ref.py:48-51 | changing the case of section titles changes neither which sections a search finds nor their order |

## Findings

| source | as written | input that shows it | evidently intended | confidence | as-written member | corrected member |
|---|---|---|---|---|---|---|
| tools/c64u/cmd/c64u/fs.go:284-297 | `defer os.Remove(tmpPath)`, but a failed download or upload reports through `formatter.Error`, which calls `os.Exit(1)`, and deferred calls do not run on `os.Exit` | `fs cp /missing.prg /x.prg`: the download fails, and the temp file `c64u-cp-*` stays in the temp directory | the temp file is removed on every exit path once created | high (Go semantics of `os.Exit`), not executed | `FsCommands.CpAsWritten` | `FsCommands.Cp` |

## Left out

- Network and the FTP wire protocol: `ftp.Dial`, `Login`, `List`, `Stor`, `Retr` and the rest are nondeterministic primitives on an in-memory tree. Timeouts, reply codes and the text of server errors are not modelled.
- `conn.Quit()` returning an error: the code never looks at it, so the model's quit always succeeds.
- The order in which the server lists a directory: any order is allowed, and each listed entry is named once.
- `Remote.World.MkdirAll`: records the target directory, not each missing ancestor it creates, because no contract here depends on the ancestors.
- `Remote.Session.Rename`: the server's rename rules (target absent, parent a directory, not into itself) are assumptions of the model, since the device's FTP server is not visible.
- `FtpApi.FtpAddressIgnoresPort`: stated for a decimal port only. With host `https` and port `//x`, the second scheme trim eats the host, so the property does not hold for arbitrary port text.
- `FtpApi.TargetsArePrefixes`: stated only for paths without `.`/`..` elements. `filepath.Clean` is modelled in full, but the prefix form only holds for plain elements.
- Entry sizes are unbounded naturals rather than 64-bit.
- The name that `os.CreateTemp` picks is a parameter of the copy commands.
- The `fs download`, `fs mkdir` and `fs cat` commands, cobra wiring, flags and help text: command plumbing outside the modelled core. `fs cat` walks untyped JSON and converts a float size.
- `FilesInfo` (tools/c64u/internal/api/files.go:17-20): a GET request whose only user is `fs cat`, which is itself outside the model.
- `Output.PrintResponse`: `api.Response` is not part of this model. Its `HasErrors()` is taken to mean a non-empty `Errors` list, and the promise that the process exits exactly when there are errors rests on that reading.
- `tools/c64u/internal/api/config.go` and the HTTP client (`c.Get`, `c.Put`): the disk-image requests are returned as values, not sent.
- The JSON encoder's text (`json.MarshalIndent`) and its marshalling-error exit: a JSON document is one output record holding the value.
- `Output.Success`: in text mode, the data fields are one record, because Go's map iteration order is unspecified.
- The `main` driver of the search script, its argument parser, hard-coded path and printing.
- Python's universal-newline translation of `\r\n` and `\r`: lines split at `\n` only.
- Python's full Unicode `lower()`: lower-casing is ASCII only.
- Display width of wide characters and emoji: widths are UTF-8 byte lengths as Go's `len` reports them, and padding counts characters as `%-*s` does.
