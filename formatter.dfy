/** The command-line tool's output formatter: every message is printed
    either as human-readable text or as one JSON document, depending on the
    formatter's mode. Printing is modelled by the sequence of output
    records a call produces; `Exit(1)` marks the point where `Error` ends
    the process. */
module Output {
  import opened TextUtil

  datatype OutputMode = ModeText | ModeJson

  datatype Formatter = Formatter(mode: OutputMode)

  /** `NewFormatter(jsonMode)`. */
  function NewFormatter(jsonMode: bool): (f: Formatter)
    ensures f.mode.ModeJson? <==> jsonMode
    ensures f.mode.ModeText? <==> !jsonMode
  {
    Formatter(if jsonMode then ModeJson else ModeText)
  }

  /** The values the formatter hands to the JSON encoder. */
  datatype JsonValue =
    | JNull
    | JBool(b: bool)
    | JNum(n: int)
    | JStr(s: string)
    | JArr(items: seq<JsonValue>)
    | JObj(fields: map<string, JsonValue>)

  /** One thing the formatter writes. Lines carry no trailing newline. */
  datatype Out =
    | Stdout(line: string)
      /** `PrintHeader(text)`, a formatter method defined outside this file. */
    | Heading(text: string)
      /** One "  key: value" line on standard output per entry, in the
          unspecified order of Go's map iteration. */
    | Fields(fields: map<string, JsonValue>)
      /** The `%v` rendering of a value on standard output. */
    | Shown(value: JsonValue)
      /** An indented JSON document on standard output. */
    | JsonDoc(value: JsonValue)
    | Stderr(line: string)
      /** `os.Exit(code)`: nothing after it is ever printed. */
    | Exit(code: int)

  predicate Exits(out: seq<Out>)
  {
    exists i :: 0 <= i < |out| && out[i].Exit?
  }

  /** Nothing goes to standard error and the process goes on. */
  predicate Quiet(out: seq<Out>)
  {
    forall i :: 0 <= i < |out| ==> !out[i].Exit? && !out[i].Stderr?
  }

  function JsonStrings(items: seq<string>): (r: seq<JsonValue>)
    ensures |r| == |items|
    ensures forall i :: 0 <= i < |items| ==> r[i] == JStr(items[i])
  {
    seq(|items|, i requires 0 <= i < |items| => JStr(items[i]))
  }

  /** `Success(message, data)`; `data == None` is a nil map. */
  function Success(f: Formatter, message: string, data: Option<map<string, JsonValue>>): (out: seq<Out>)
    ensures Quiet(out)
    ensures f.mode.ModeJson? ==>
              && |out| == 1 && out[0].JsonDoc? && out[0].value.JObj?
              && out[0].value.fields.Keys == {"success", "message"} + (if data.Some? then {"data"} else {})
              && out[0].value.fields["success"] == JBool(true)
              && out[0].value.fields["message"] == JStr(message)
              && (data.Some? ==> out[0].value.fields["data"] == JObj(data.value))
    ensures f.mode.ModeText? ==>
              && |out| >= 1 && out[0] == Stdout("✓ " + message)
              && (|out| == 2 <==> data.Some? && |data.value| > 0)
              && (|out| == 2 ==> out[1] == Fields(data.value))
              && |out| <= 2
  {
    if f.mode.ModeJson? then
      var base := map["success" := JBool(true), "message" := JStr(message)];
      [JsonDoc(JObj(if data.Some? then base["data" := JObj(data.value)] else base))]
    else
      [Stdout("✓ " + message)] + (if data.Some? && |data.value| > 0 then [Fields(data.value)] else [])
  }

  /** `Error(message, errors)`: reports and then ends the process with
      status 1, in both modes. */
  function Error(f: Formatter, message: string, errors: seq<string>): (out: seq<Out>)
    ensures |out| >= 2 && out[|out| - 1] == Exit(1)
    ensures forall i :: 0 <= i < |out| - 1 ==> !out[i].Exit?
    ensures f.mode.ModeJson? ==>
              && |out| == 2 && out[0].JsonDoc? && out[0].value.JObj?
              && out[0].value.fields.Keys == {"success", "message", "errors"}
              && out[0].value.fields["success"] == JBool(false)
              && out[0].value.fields["message"] == JStr(message)
              && out[0].value.fields["errors"] == JArr(JsonStrings(errors))
    ensures f.mode.ModeText? ==>
              && |out| == |errors| + 2
              && out[0] == Stderr("✗ Error: " + message)
              && forall i :: 0 <= i < |errors| ==> out[i + 1] == Stderr("  - " + errors[i])
  {
    var report :=
      if f.mode.ModeJson? then
        [JsonDoc(JObj(map["success" := JBool(false), "message" := JStr(message), "errors" := JArr(JsonStrings(errors))]))]
      else
        [Stderr("✗ Error: " + message)] + ErrorLines(errors);
    report + [Exit(1)]
  }

  function ErrorLines(errors: seq<string>): (r: seq<Out>)
    ensures |r| == |errors|
    ensures forall i :: 0 <= i < |errors| ==> r[i] == Stderr("  - " + errors[i])
  {
    seq(|errors|, i requires 0 <= i < |errors| => Stderr("  - " + errors[i]))
  }

  /** Whatever was printed before, an `Error` ends the process. */
  lemma ErrorEnds(pre: seq<Out>, f: Formatter, message: string, errors: seq<string>)
    ensures Exits(pre + Error(f, message, errors))
  {
    var e := Error(f, message, errors);
    assert (pre + e)[|pre| + |e| - 1] == e[|e| - 1];
  }

  /** Output that neither writes to standard error nor exits, followed by
      more such output, does not end the process. */
  lemma QuietEnds(pre: seq<Out>, post: seq<Out>)
    requires Quiet(pre) && Quiet(post)
    ensures Quiet(pre + post) && !Exits(pre + post)
  {
    forall i | 0 <= i < |pre + post| ensures !(pre + post)[i].Exit? && !(pre + post)[i].Stderr? {
      if i >= |pre| {
        assert (pre + post)[i] == post[i - |pre|];
      }
    }
  }

  /** The part of `api.Response` the formatter reads. `HasErrors` is taken
      to mean a non-empty error list. */
  datatype Response = Response(data: Option<map<string, JsonValue>>, errors: seq<string>)

  /** `PrintResponse(resp, successMsg)`. */
  function PrintResponse(f: Formatter, resp: Response, successMsg: string): (out: seq<Out>)
    ensures Exits(out) <==> |resp.errors| > 0
    ensures |resp.errors| > 0 ==> out == Error(f, successMsg + " failed", resp.errors)
    ensures |resp.errors| == 0 ==> out == Success(f, successMsg, resp.data)
  {
    if |resp.errors| > 0 then
      var out := Error(f, successMsg + " failed", resp.errors);
      assert out[|out| - 1].Exit?;
      out
    else Success(f, successMsg, resp.data)
  }

  /** The dynamic types `PrintData` distinguishes in text mode. */
  datatype Data =
    | DText(s: string)
    | DList(items: seq<string>)
    | DMap(m: map<string, JsonValue>)
    | DOther(v: JsonValue)

  function ToJson(d: Data): JsonValue
  {
    match d
    case DText(s) => JStr(s)
    case DList(items) => JArr(JsonStrings(items))
    case DMap(m) => JObj(m)
    case DOther(v) => v
  }

  /** `PrintData(data)`. */
  function PrintData(f: Formatter, data: Data): (out: seq<Out>)
    ensures Quiet(out)
    ensures f.mode.ModeJson? ==> out == [JsonDoc(ToJson(data))]
    ensures f.mode.ModeText? && data.DText? ==> out == [Stdout(data.s)]
    ensures f.mode.ModeText? && data.DList? ==>
              |out| == |data.items| && forall i :: 0 <= i < |out| ==> out[i] == Stdout("  - " + data.items[i])
    ensures f.mode.ModeText? && data.DMap? ==> out == [Fields(data.m)]
    ensures f.mode.ModeText? && data.DOther? ==> out == [Shown(data.v)]
  {
    if f.mode.ModeJson? then [JsonDoc(ToJson(data))]
    else
      match data
      case DText(s) => [Stdout(s)]
      case DList(items) => seq(|items|, i requires 0 <= i < |items| => Stdout("  - " + items[i]))
      case DMap(m) => [Fields(m)]
      case DOther(v) => [Shown(v)]
  }

  /** `Info(message)`: text mode only. */
  function Info(f: Formatter, message: string): (out: seq<Out>)
    ensures Quiet(out)
    ensures f.mode.ModeJson? <==> out == []
    ensures f.mode.ModeText? ==> out == [Stdout("ℹ " + message)]
  {
    if f.mode.ModeText? then [Stdout("ℹ " + message)] else []
  }

  /** `Warning(message)`: never ends the process; in text mode it goes to
      standard error only. */
  function Warning(f: Formatter, message: string): (out: seq<Out>)
    ensures |out| == 1 && !Exits(out)
    ensures f.mode.ModeJson? ==> out[0].JsonDoc? && out[0].value == JObj(map["warning" := JStr(message)])
    ensures f.mode.ModeText? ==> out[0] == Stderr("⚠ Warning: " + message)
  {
    if f.mode.ModeJson? then [JsonDoc(JObj(map["warning" := JStr(message)]))]
    else [Stderr("⚠ Warning: " + message)]
  }

  // ---------------------------------------------------------------------
  // Tables

  /** `widths` after the row loop has seen `row`: a column grows to the
      byte length of a longer cell; cells beyond the headers are ignored. */
  function Widen(widths: seq<nat>, row: seq<string>): (r: seq<nat>)
    ensures |r| == |widths|
    ensures forall i :: 0 <= i < |widths| ==>
              r[i] == (if i < |row| && ByteLen(row[i]) > widths[i] then ByteLen(row[i]) else widths[i])
  {
    seq(|widths|, i requires 0 <= i < |widths| =>
      if i < |row| && ByteLen(row[i]) > widths[i] then ByteLen(row[i]) else widths[i])
  }

  /** The column widths `PrintTable` computes, one per header. */
  function Widths(headers: seq<string>, rows: seq<seq<string>>): (r: seq<nat>)
    ensures |r| == |headers|
  {
    if rows == [] then seq(|headers|, i requires 0 <= i < |headers| => ByteLen(headers[i]))
    else Widen(Widths(headers, rows[..|rows| - 1]), rows[|rows| - 1])
  }

  /** A column is exactly as wide, in bytes, as the longest of its header
      and its cells. */
  lemma {:induction false} WidthsAreMax(headers: seq<string>, rows: seq<seq<string>>, i: nat)
    requires i < |headers|
    ensures Widths(headers, rows)[i] >= ByteLen(headers[i])
    ensures forall j :: 0 <= j < |rows| && i < |rows[j]| ==> Widths(headers, rows)[i] >= ByteLen(rows[j][i])
    ensures || Widths(headers, rows)[i] == ByteLen(headers[i])
            || exists j :: 0 <= j < |rows| && i < |rows[j]| && Widths(headers, rows)[i] == ByteLen(rows[j][i])
  {
    if rows != [] {
      var front := rows[..|rows| - 1];
      WidthsAreMax(headers, front, i);
      forall j | 0 <= j < |front| && i < |front[j]| ensures rows[j] == front[j] {}
      var w0 := Widths(headers, front)[i];
      if Widths(headers, rows)[i] != w0 {
        assert Widths(headers, rows)[i] == ByteLen(rows[|rows| - 1][i]);
      } else if w0 != ByteLen(headers[i]) {
        var j :| 0 <= j < |front| && i < |front[j]| && w0 == ByteLen(front[j][i]);
        assert rows[j] == front[j];
      }
    }
  }

  /** Go's `%-*s`: left-aligned in a field `w` characters wide. */
  function Pad(s: string, w: nat): (r: string)
    ensures |r| == (if |s| < w then w else |s|)
    ensures r[..|s|] == s
    ensures forall i :: |s| <= i < |r| ==> r[i] == ' '
  {
    if |s| < w then s + Repeat(' ', w - |s|) else s
  }

  function Concat(chunks: seq<string>): string
  {
    if chunks == [] then "" else Concat(chunks[..|chunks| - 1]) + chunks[|chunks| - 1]
  }

  lemma ConcatSnoc(chunks: seq<string>, c: string)
    ensures Concat(chunks + [c]) == Concat(chunks) + c
  {
    assert (chunks + [c])[..|chunks|] == chunks;
  }

  /** The first `n` cells of a line, each padded to its column and followed
      by two spaces. */
  function CellChunks(cells: seq<string>, widths: seq<nat>, n: nat): (r: seq<string>)
    requires n <= |cells| && n <= |widths|
    ensures |r| == n
    ensures forall i :: 0 <= i < n ==> r[i] == Pad(cells[i], widths[i]) + "  "
  {
    seq(n, i requires 0 <= i < n => Pad(cells[i], widths[i]) + "  ")
  }

  function DashChunks(widths: seq<nat>): (r: seq<string>)
    ensures |r| == |widths|
    ensures forall i :: 0 <= i < |widths| ==> r[i] == Repeat('-', widths[i]) + "  "
  {
    seq(|widths|, i requires 0 <= i < |widths| => Repeat('-', widths[i]) + "  ")
  }

  function Min(a: nat, b: nat): nat
  {
    if a < b then a else b
  }

  /** A data row: only cells that have a column are printed. */
  function RowLine(row: seq<string>, widths: seq<nat>): string
  {
    Concat(CellChunks(row, widths, Min(|row|, |widths|)))
  }

  function RowLines(rows: seq<seq<string>>, widths: seq<nat>): (r: seq<Out>)
    ensures |r| == |rows|
  {
    if rows == [] then []
    else RowLines(rows[..|rows| - 1], widths) + [Stdout(RowLine(rows[|rows| - 1], widths))]
  }

  lemma {:induction false} RowLinesAt(rows: seq<seq<string>>, widths: seq<nat>, j: nat)
    requires j < |rows|
    ensures RowLines(rows, widths)[j] == Stdout(RowLine(rows[j], widths))
  {
    if j < |rows| - 1 {
      RowLinesAt(rows[..|rows| - 1], widths, j);
    }
  }

  /** The text-mode table: header line, separator line, one line per row. */
  function TableText(headers: seq<string>, rows: seq<seq<string>>): seq<Out>
  {
    var w := Widths(headers, rows);
    TableLines(Concat(CellChunks(headers, w, |headers|)), Concat(DashChunks(w)), rows, w)
  }

  function TableLines(header: string, separator: string, rows: seq<seq<string>>, widths: seq<nat>): seq<Out>
  {
    [Stdout(header), Stdout(separator)] + RowLines(rows, widths)
  }

  /** The JSON object for one row after the header loop has seen the first
      `n` headers; a later duplicate header overwrites an earlier one. */
  function RowObject(headers: seq<string>, row: seq<string>, n: nat): map<string, JsonValue>
    requires n <= |headers|
  {
    if n == 0 then map[]
    else
      var m := RowObject(headers, row, n - 1);
      if n - 1 < |row| then m[headers[n - 1] := JStr(row[n - 1])] else m
  }

  function JsonRows(headers: seq<string>, rows: seq<seq<string>>): (r: seq<JsonValue>)
    ensures |r| == |rows|
  {
    if rows == [] then []
    else JsonRows(headers, rows[..|rows| - 1]) + [JObj(RowObject(headers, rows[|rows| - 1], |headers|))]
  }

  /** The JSON-mode table: Go encodes the never-appended row slice as null. */
  function JsonTable(headers: seq<string>, rows: seq<seq<string>>): JsonValue
  {
    if rows == [] then JNull else JArr(JsonRows(headers, rows))
  }

  function Table(f: Formatter, headers: seq<string>, rows: seq<seq<string>>): seq<Out>
  {
    if f.mode.ModeJson? then [JsonDoc(JsonTable(headers, rows))] else TableText(headers, rows)
  }

  /** `PrintTable(headers, rows)`. */
  method PrintTable(f: Formatter, headers: seq<string>, rows: seq<seq<string>>) returns (out: seq<Out>)
    ensures out == Table(f, headers, rows)
  {
    if f.mode.ModeJson? {
      var jsonRows := RowObjects(headers, rows);
      out := [JsonDoc(if jsonRows == [] then JNull else JArr(jsonRows))];
      return;
    }
    var widths := ColumnWidths(headers, rows);
    var header := FormatRow(headers, widths);
    assert Min(|headers|, |widths|) == |headers|;
    var separator := Separator(widths);
    var lines := FormatRows(rows, widths);
    out := [Stdout(header), Stdout(separator)] + lines;
  }

  /** The JSON-mode loops of `PrintTable`. */
  method RowObjects(headers: seq<string>, rows: seq<seq<string>>) returns (jsonRows: seq<JsonValue>)
    ensures jsonRows == JsonRows(headers, rows)
  {
    jsonRows := [];
    for j := 0 to |rows|
      invariant jsonRows == JsonRows(headers, rows[..j])
    {
      var jsonRow := map[];
      for i := 0 to |headers|
        invariant jsonRow == RowObject(headers, rows[j], i)
      {
        if i < |rows[j]| {
          jsonRow := jsonRow[headers[i] := JStr(rows[j][i])];
        }
      }
      assert rows[..j + 1][..j] == rows[..j];
      jsonRows := jsonRows + [JObj(jsonRow)];
    }
    assert rows[..|rows|] == rows;
  }

  /** The separator loop of `PrintTable`. */
  method Separator(widths: seq<nat>) returns (separator: string)
    ensures separator == Concat(DashChunks(widths))
  {
    separator := "";
    for i := 0 to |widths|
      invariant separator == Concat(DashChunks(widths)[..i])
    {
      ConcatSnoc(DashChunks(widths)[..i], Repeat('-', widths[i]) + "  ");
      assert DashChunks(widths)[..i + 1] == DashChunks(widths)[..i] + [Repeat('-', widths[i]) + "  "];
      separator := separator + (Repeat('-', widths[i]) + "  ");
    }
    assert DashChunks(widths)[..|widths|] == DashChunks(widths);
  }

  /** The data-row loop of `PrintTable`. */
  method FormatRows(rows: seq<seq<string>>, widths: seq<nat>) returns (lines: seq<Out>)
    ensures lines == RowLines(rows, widths)
  {
    lines := [];
    for j := 0 to |rows|
      invariant lines == RowLines(rows[..j], widths)
    {
      var line := FormatRow(rows[j], widths);
      assert rows[..j + 1][..j] == rows[..j];
      lines := lines + [Stdout(line)];
    }
    assert rows[..|rows|] == rows;
  }

  /** The column-width loops of `PrintTable`, on an array of widths. */
  method ColumnWidths(headers: seq<string>, rows: seq<seq<string>>) returns (ws: seq<nat>)
    ensures ws == Widths(headers, rows)
  {
    var widths := new nat[|headers|];
    for i := 0 to |headers|
      invariant forall k :: 0 <= k < i ==> widths[k] == ByteLen(headers[k])
    {
      widths[i] := ByteLen(headers[i]);
    }
    assert widths[..] == Widths(headers, rows[..0]);
    for j := 0 to |rows|
      invariant widths[..] == Widths(headers, rows[..j])
    {
      ghost var before := widths[..];
      var row := rows[j];
      for i := 0 to |row|
        invariant forall k :: 0 <= k < widths.Length ==>
                    widths[k] == (if k < i then Widen(before, row)[k] else before[k])
      {
        if i < widths.Length && ByteLen(row[i]) > widths[i] {
          widths[i] := ByteLen(row[i]);
        }
      }
      assert rows[..j + 1][..j] == rows[..j];
      assert widths[..] == Widen(before, row);
    }
    assert rows[..|rows|] == rows;
    ws := widths[..];
  }

  /** The cell loop of one data row. */
  method FormatRow(row: seq<string>, widths: seq<nat>) returns (line: string)
    ensures line == RowLine(row, widths)
  {
    line := "";
    for i := 0 to |row|
      invariant line == RowPrefix(row, widths, i)
    {
      RowPrefixStep(row, widths, i);
      if i < |widths| {
        line := line + (Pad(row[i], widths[i]) + "  ");
      }
    }
  }

  /** The line of the first `i` cells of a data row. */
  ghost function RowPrefix(row: seq<string>, widths: seq<nat>, i: nat): string
    requires i <= |row|
  {
    Concat(CellChunks(row, widths, Min(i, |widths|)))
  }

  lemma RowPrefixStep(row: seq<string>, widths: seq<nat>, i: nat)
    requires i < |row|
    ensures RowPrefix(row, widths, i + 1) ==
            RowPrefix(row, widths, i) + (if i < |widths| then Pad(row[i], widths[i]) + "  " else "")
  {
    if i < |widths| {
      ConcatSnoc(CellChunks(row, widths, i), Pad(row[i], widths[i]) + "  ");
      assert CellChunks(row, widths, i + 1) == CellChunks(row, widths, i) + [Pad(row[i], widths[i]) + "  "];
    } else {
      assert RowPrefix(row, widths, i) + "" == RowPrefix(row, widths, i);
    }
  }

  // ---------------------------------------------------------------------
  // What the table promises

  lemma {:induction false} RowLinesStdout(rows: seq<seq<string>>, widths: seq<nat>)
    ensures forall j :: 0 <= j < |rows| ==> RowLines(rows, widths)[j] == Stdout(RowLine(rows[j], widths))
  {
    forall j | 0 <= j < |rows| ensures RowLines(rows, widths)[j] == Stdout(RowLine(rows[j], widths)) {
      RowLinesAt(rows, widths, j);
    }
  }

  /** A text table has the header line, the separator line and one line
      per row, all on standard output. */
  lemma TableTextShape(headers: seq<string>, rows: seq<seq<string>>)
    ensures |TableText(headers, rows)| == |rows| + 2
    ensures forall k :: 0 <= k < |TableText(headers, rows)| ==> TableText(headers, rows)[k].Stdout?
    ensures forall j :: 0 <= j < |rows| ==>
              TableText(headers, rows)[j + 2] == Stdout(RowLine(rows[j], Widths(headers, rows)))
  {
    var w := Widths(headers, rows);
    TableLinesShape(Concat(CellChunks(headers, w, |headers|)), Concat(DashChunks(w)), rows, w);
  }

  lemma TableLinesShape(header: string, separator: string, rows: seq<seq<string>>, widths: seq<nat>)
    ensures |TableLines(header, separator, rows, widths)| == |rows| + 2
    ensures forall k :: 0 <= k < |rows| + 2 ==> TableLines(header, separator, rows, widths)[k].Stdout?
    ensures forall j :: 0 <= j < |rows| ==> TableLines(header, separator, rows, widths)[j + 2] == Stdout(RowLine(rows[j], widths))
  {
    RowLinesStdout(rows, widths);
  }

  /** Where chunk `i` starts in the concatenation. */
  function Start(chunks: seq<string>, i: nat): nat
    requires i <= |chunks|
  {
    |Concat(chunks[..i])|
  }

  lemma {:induction false} ConcatLength(chunks: seq<string>, i: nat)
    requires i < |chunks|
    ensures Start(chunks, i) + |chunks[i]| <= |Concat(chunks)|
    ensures Concat(chunks)[Start(chunks, i)..Start(chunks, i) + |chunks[i]|] == chunks[i]
    decreases |chunks|
  {
    var front := chunks[..|chunks| - 1];
    if i == |chunks| - 1 {
      assert chunks[..i] == front;
    } else {
      ConcatLength(front, i);
      assert front[..i] == chunks[..i];
      var c := Concat(front);
      assert Concat(chunks) == c + chunks[|chunks| - 1];
      assert Concat(chunks)[Start(chunks, i)..Start(chunks, i) + |chunks[i]|]
          == c[Start(chunks, i)..Start(chunks, i) + |chunks[i]|];
    }
  }

  /** Chunks of equal lengths start at equal offsets. */
  lemma {:induction false} SameStarts(a: seq<string>, b: seq<string>, i: nat)
    requires |a| == |b| && i <= |a|
    requires forall k :: 0 <= k < i ==> |a[k]| == |b[k]|
    ensures Start(a, i) == Start(b, i)
  {
    if i > 0 {
      SameStarts(a, b, i - 1);
      assert a[..i][..i - 1] == a[..i - 1];
      assert b[..i][..i - 1] == b[..i - 1];
    }
  }

  /** A cell no wider in bytes than its column fills the column exactly
      when padded (a character takes at least one byte). */
  lemma PadFills(s: string, w: nat)
    requires ByteLen(s) <= w
    ensures |Pad(s, w)| == w
  {
  }

  /** `line` holds `cell`, padded to `width` and followed by two spaces,
      at offset `at`. */
  predicate CellAt(line: string, at: nat, cell: string, width: nat)
  {
    at + width + 2 <= |line| && line[at..at + width + 2] == Pad(cell, width) + "  "
  }

  /** On a line whose cells all fit their columns, cell `i` starts where
      the separator's dashes for column `i` start. */
  lemma CellsAlign(cells: seq<string>, widths: seq<nat>, i: nat)
    requires |cells| >= |widths| && i < |widths|
    requires forall k :: 0 <= k < |widths| ==> ByteLen(cells[k]) <= widths[k]
    ensures CellAt(Concat(CellChunks(cells, widths, |widths|)), Start(DashChunks(widths), i), cells[i], widths[i])
  {
    var chunks := CellChunks(cells, widths, |widths|);
    var dashes := DashChunks(widths);
    SameWidths(cells, widths);
    ChunksAlign(chunks, dashes, i);
    PadFills(cells[i], widths[i]);
    ChunkIsCell(Concat(chunks), Start(dashes, i), chunks[i], cells[i], widths[i]);
  }

  lemma ChunkIsCell(line: string, at: nat, chunk: string, cell: string, width: nat)
    requires at + |chunk| <= |line| && line[at..at + |chunk|] == chunk
    requires chunk == Pad(cell, width) + "  " && |Pad(cell, width)| == width
    ensures CellAt(line, at, cell, width)
  {
  }

  /** Chunk `i` of a line sits where chunk `i` of an equally shaped line starts. */
  lemma ChunksAlign(chunks: seq<string>, other: seq<string>, i: nat)
    requires |chunks| == |other| && i < |chunks|
    requires forall k :: 0 <= k < |chunks| ==> |chunks[k]| == |other[k]|
    ensures Start(chunks, i) == Start(other, i)
    ensures Start(other, i) + |chunks[i]| <= |Concat(chunks)|
    ensures Concat(chunks)[Start(other, i)..Start(other, i) + |chunks[i]|] == chunks[i]
  {
    SameStarts(chunks, other, i);
    ConcatLength(chunks, i);
  }

  /** Padded cells that fit are as long as their separator chunks. */
  lemma SameWidths(cells: seq<string>, widths: seq<nat>)
    requires |cells| >= |widths|
    requires forall k :: 0 <= k < |widths| ==> ByteLen(cells[k]) <= widths[k]
    ensures forall k :: 0 <= k < |widths| ==>
              |CellChunks(cells, widths, |widths|)[k]| == |DashChunks(widths)[k]| == widths[k] + 2
  {
    forall k | 0 <= k < |widths|
      ensures |CellChunks(cells, widths, |widths|)[k]| == |DashChunks(widths)[k]| == widths[k] + 2
    {
      PadFills(cells[k], widths[k]);
    }
  }

  /** The separator holds `widths[i]` dashes and two spaces for column `i`. */
  lemma DashesAt(widths: seq<nat>, i: nat)
    requires i < |widths|
    ensures var at := Start(DashChunks(widths), i);
            var line := Concat(DashChunks(widths));
            at + widths[i] + 2 <= |line| && line[at..at + widths[i] + 2] == Repeat('-', widths[i]) + "  "
  {
    ConcatLength(DashChunks(widths), i);
  }

  /** Every header and every cell fits its column. */
  predicate Fits(headers: seq<string>, rows: seq<seq<string>>, widths: seq<nat>)
    requires |widths| == |headers|
  {
    && (forall k :: 0 <= k < |headers| ==> ByteLen(headers[k]) <= widths[k])
    && (forall j, k :: 0 <= j < |rows| && 0 <= k < |rows[j]| && k < |headers| ==> ByteLen(rows[j][k]) <= widths[k])
  }

  lemma WidthsFit(headers: seq<string>, rows: seq<seq<string>>)
    ensures Fits(headers, rows, Widths(headers, rows))
  {
    forall k | 0 <= k < |headers| {
      WidthsAreMax(headers, rows, k);
    }
  }

  /** The columns line up: in the header line, the separator line and every
      row that has a cell for every column, column `i` starts at the same
      offset, and there the header, `widths[i]` dashes, or the row's cell,
      padded to the column width, are followed by two spaces. */
  lemma ColumnsAlign(headers: seq<string>, rows: seq<seq<string>>, i: nat)
    requires i < |headers|
    ensures Aligned(headers, rows, Widths(headers, rows), i)
  {
    WidthsFit(headers, rows);
    FittingColumnsAlign(headers, rows, Widths(headers, rows), i);
  }

  predicate Aligned(headers: seq<string>, rows: seq<seq<string>>, widths: seq<nat>, i: nat)
    requires |widths| == |headers| && i < |headers|
  {
    var at := Start(DashChunks(widths), i);
    var sline := Concat(DashChunks(widths));
    && CellAt(Concat(CellChunks(headers, widths, |headers|)), at, headers[i], widths[i])
    && at + widths[i] + 2 <= |sline| && sline[at..at + widths[i] + 2] == Repeat('-', widths[i]) + "  "
    && forall j :: 0 <= j < |rows| && |rows[j]| >= |headers| ==> CellAt(RowLine(rows[j], widths), at, rows[j][i], widths[i])
  }

  lemma FittingColumnsAlign(headers: seq<string>, rows: seq<seq<string>>, widths: seq<nat>, i: nat)
    requires |widths| == |headers| && i < |headers|
    requires Fits(headers, rows, widths)
    ensures Aligned(headers, rows, widths, i)
  {
    CellsAlign(headers, widths, i);
    DashesAt(widths, i);
    forall j | 0 <= j < |rows| && |rows[j]| >= |headers|
      ensures CellAt(RowLine(rows[j], widths), Start(DashChunks(widths), i), rows[j][i], widths[i])
    {
      assert Min(|rows[j]|, |widths|) == |widths|;
      CellsAlign(rows[j], widths, i);
    }
  }

  /** A row object holds a header exactly when that header has a cell. */
  lemma {:induction false} RowObjectKeys(headers: seq<string>, row: seq<string>, n: nat)
    requires n <= |headers|
    ensures forall k :: k in RowObject(headers, row, n) <==>
              exists i :: 0 <= i < n && i < |row| && headers[i] == k
  {
    if n > 0 {
      RowObjectKeys(headers, row, n - 1);
      forall k | k in RowObject(headers, row, n)
        ensures exists i :: 0 <= i < n && i < |row| && headers[i] == k
      {
        if !(n - 1 < |row| && headers[n - 1] == k) {
          assert k in RowObject(headers, row, n - 1);
          var i :| 0 <= i < n - 1 && i < |row| && headers[i] == k;
        }
      }
    }
  }

  /** The cell stored under a header is the one of its last occurrence. */
  lemma {:induction false} RowObjectLastWins(headers: seq<string>, row: seq<string>, n: nat, i: nat)
    requires n <= |headers| && i < n && i < |row|
    requires forall i2 :: i < i2 < n && i2 < |row| ==> headers[i2] != headers[i]
    ensures headers[i] in RowObject(headers, row, n)
    ensures RowObject(headers, row, n)[headers[i]] == JStr(row[i])
  {
    if i < n - 1 {
      RowObjectLastWins(headers, row, n - 1, i);
    }
  }

  lemma {:induction false} JsonRowsAt(headers: seq<string>, rows: seq<seq<string>>, j: nat)
    requires j < |rows|
    ensures JsonRows(headers, rows)[j] == JObj(RowObject(headers, rows[j], |headers|))
  {
    if j < |rows| - 1 {
      JsonRowsAt(headers, rows[..|rows| - 1], j);
    }
  }

  /** In JSON mode a table is null without rows, and otherwise an array
      with one row object per row, in row order. */
  lemma JsonTableShape(headers: seq<string>, rows: seq<seq<string>>)
    ensures |rows| == 0 <==> JsonTable(headers, rows) == JNull
    ensures |rows| > 0 ==>
              && JsonTable(headers, rows).JArr? && |JsonTable(headers, rows).items| == |rows|
              && forall j :: 0 <= j < |rows| ==>
                   JsonTable(headers, rows).items[j] == JObj(RowObject(headers, rows[j], |headers|))
  {
    forall j | 0 <= j < |rows| ensures JsonRows(headers, rows)[j] == JObj(RowObject(headers, rows[j], |headers|)) {
      JsonRowsAt(headers, rows, j);
    }
  }
}
