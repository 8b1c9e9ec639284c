/**
 * scripts/modify-glazing-requirements-schema.js: pick the newest export
 * file in the project directory, then rewrite its CSV text with the
 * `length` column removed and `panel_count` renamed to `panel_width`.
 * The directory listing and the files' modification times are inputs;
 * reading and writing files is not modelled.
 */
module SchemaMigration {
  import opened JsText
  import opened JsValue

  /** A directory entry: its name and its modification time. */
  datatype DirEntry = DirEntry(name: string, mtime: int)

  const ExportPrefix := "glazing-requirements-"
  const CsvSuffix := ".csv"

  /** The names `findMostRecentExport` considers. */
  predicate IsExportName(name: string)
  {
    StartsWith(name, ExportPrefix) && EndsWith(name, CsvSuffix)
  }

  /** `files.filter(...)`: the export files, in directory order. */
  function Candidates(files: seq<DirEntry>): (r: seq<DirEntry>)
    ensures |r| <= |files|
    ensures forall i :: 0 <= i < |r| ==> IsExportName(r[i].name)
  {
    if files == [] then []
    else
      var n := |files| - 1;
      Candidates(files[..n]) + (if IsExportName(files[n].name) then [files[n]] else [])
  }

  /** An entry is a candidate exactly when it is listed and has an export name. */
  lemma {:induction false} CandidatesExact(files: seq<DirEntry>, f: DirEntry)
    ensures f in Candidates(files) <==> f in files && IsExportName(f.name)
  {
    if files != [] {
      var n := |files| - 1;
      CandidatesExact(files[..n], f);
      assert files == files[..n] + [files[n]];
    }
  }

  /** The first element after the stable sort by descending mtime: the
      earliest-listed entry among those with the greatest mtime. */
  function Newest(cands: seq<DirEntry>): DirEntry
    requires cands != []
  {
    if |cands| == 1 then cands[0]
    else
      var n := |cands| - 1;
      var m := Newest(cands[..n]);
      if cands[n].mtime > m.mtime then cands[n] else m
  }

  /** The newest entry is listed, no entry is newer, and every entry listed
      before it is strictly older. */
  lemma {:induction false} NewestIsFirstMaximum(cands: seq<DirEntry>) returns (i: nat)
    requires cands != []
    ensures i < |cands| && cands[i] == Newest(cands)
    ensures forall j :: 0 <= j < |cands| ==> cands[j].mtime <= cands[i].mtime
    ensures forall j :: 0 <= j < i ==> cands[j].mtime < cands[i].mtime
  {
    if |cands| == 1 {
      i := 0;
    } else {
      var n := |cands| - 1;
      var k := NewestIsFirstMaximum(cands[..n]);
      if cands[n].mtime > cands[k].mtime {
        i := n;
      } else {
        i := k;
      }
    }
  }

  /** `findMostRecentExport()`: `None` is the fatal exit taken when no
      export file exists; otherwise the name of the newest one. */
  method FindMostRecentExport(files: seq<DirEntry>) returns (r: Option<string>)
    ensures r == None <==> Candidates(files) == []
    ensures Candidates(files) != [] ==> r == Some(Newest(Candidates(files)).name)
  {
    var exportFiles: seq<DirEntry> := [];
    var i := 0;
    while i < |files|
      invariant 0 <= i <= |files|
      invariant exportFiles == Candidates(files[..i])
    {
      assert files[..i + 1][..i] == files[..i];
      if IsExportName(files[i].name) {
        exportFiles := exportFiles + [files[i]];
      }
      i := i + 1;
    }
    assert files[..i] == files;
    if |exportFiles| == 0 {
      return None;
    }
    var best := exportFiles[0];
    var j := 1;
    while j < |exportFiles|
      invariant 1 <= j <= |exportFiles|
      invariant best == Newest(exportFiles[..j])
    {
      assert exportFiles[..j + 1][..j] == exportFiles[..j];
      if exportFiles[j].mtime > best.mtime {
        best := exportFiles[j];
      }
      j := j + 1;
    }
    assert exportFiles[..j] == exportFiles;
    r := Some(best.name);
  }

  /** The name `modifySchema` writes for a timestamp. */
  function ModifiedName(timestamp: string): string
  {
    "glazing-requirements-modified-" + timestamp + ".csv"
  }

  /** The files this script writes are export files themselves, so a later
      run picks up its own output. */
  lemma ModifiedNameIsCandidate(timestamp: string)
    ensures IsExportName(ModifiedName(timestamp))
  {
    var name := ModifiedName(timestamp);
    assert name[..|ExportPrefix|] == ExportPrefix;
    assert name[|name| - |CsvSuffix|..] == CsvSuffix;
  }

  // ---- the line transform ----

  /** `xs.splice(i, 1)` on an index in range; no change otherwise. */
  function RemoveAt<T>(xs: seq<T>, i: int): seq<T>
  {
    if 0 <= i < |xs| then xs[..i] + xs[i + 1..] else xs
  }

  /** Splicing out an index in range drops exactly that element; the others
      keep their order. */
  lemma RemoveAtKeepsOrder<T>(xs: seq<T>, i: int)
    requires 0 <= i < |xs|
    ensures |RemoveAt(xs, i)| == |xs| - 1
    ensures forall k :: 0 <= k < i ==> RemoveAt(xs, i)[k] == xs[k]
    ensures forall k :: i < k < |xs| ==> RemoveAt(xs, i)[k - 1] == xs[k]
  {
  }

  /** `xs.filter((_, index) => index !== i)` */
  function KeepOthers<T>(xs: seq<T>, i: int): seq<T>
  {
    if xs == [] then []
    else
      var n := |xs| - 1;
      KeepOthers(xs[..n], i) + (if n != i then [xs[n]] else [])
  }

  /** Filtering out one index is removing the element at it. */
  lemma {:induction false} KeepOthersRemoves<T>(xs: seq<T>, i: int)
    ensures KeepOthers(xs, i) == RemoveAt(xs, i)
  {
    if xs != [] {
      var n := |xs| - 1;
      KeepOthersRemoves(xs[..n], i);
      if 0 <= i < n {
        assert xs[..n][..i] == xs[..i];
        assert xs[..n][i + 1..] + [xs[n]] == xs[i + 1..];
      } else if i == n {
        assert xs[..n] == xs[..i] + xs[i + 1..];
      }
    }
  }

  /** The header names after `newHeaders[panelCountIndex] = 'panel_width'`. */
  function RenamedHeaders(headers: seq<string>): seq<string>
  {
    var p := IndexOf(headers, "panel_count");
    if p == -1 then headers else headers[p := "panel_width"]
  }

  /** Only the first `panel_count` is renamed; every other name is kept. */
  lemma RenameFirstPanelCount(headers: seq<string>)
    ensures |RenamedHeaders(headers)| == |headers|
    ensures forall k :: 0 <= k < |headers| ==>
      RenamedHeaders(headers)[k]
        == if headers[k] == "panel_count" && "panel_count" !in headers[..k] then "panel_width" else headers[k]
  {
    var p := IndexOf(headers, "panel_count");
    forall k | 0 <= k < |headers|
      ensures RenamedHeaders(headers)[k]
        == if headers[k] == "panel_count" && "panel_count" !in headers[..k] then "panel_width" else headers[k]
    {
      if p >= 0 && k > p {
        assert headers[..k][p] == headers[p];
      }
    }
  }

  /** The header line written: renamed, with the `length` column left out. */
  function HeaderLine(headers: seq<string>): string
  {
    JoinWith(KeepOthers(RenamedHeaders(headers), IndexOf(headers, "length")), ',')
  }

  /** One data line: split on every comma (quotes are not respected), the
      field at the `length` index spliced out, joined again. */
  function DataRow(line: string, lengthIndex: int): string
  {
    var values := SplitOn(line, ',');
    JoinWith(if lengthIndex != -1 then RemoveAt(values, lengthIndex) else values, ',')
  }

  /** The rows pushed for the data lines: blank lines are skipped. */
  function DataRows(lines: seq<string>, lengthIndex: int): seq<string>
  {
    if lines == [] then []
    else
      var n := |lines| - 1;
      DataRows(lines[..n], lengthIndex) + (if IsBlank(lines[n]) then [] else [DataRow(lines[n], lengthIndex)])
  }

  /** The text `modifySchema` writes for the text it reads. */
  function ModifiedCsv(csv: string): string
  {
    var lines := SplitOn(csv, '\n');
    var headers := SplitOn(lines[0], ',');
    JoinWith([HeaderLine(headers)] + DataRows(lines[1..], IndexOf(headers, "length")), '\n')
  }

  /** `modifySchema(inputFilePath)` on the file's text; the result is the
      text written to the new file. */
  method ModifySchema(csv: string) returns (out: string)
    ensures out == ModifiedCsv(csv)
  {
    var lines := SplitOn(csv, '\n');
    var headers := SplitOn(lines[0], ',');
    var lengthIndex := IndexOf(headers, "length");
    var panelCountIndex := IndexOf(headers, "panel_count");
    var newHeaders := headers;
    if panelCountIndex != -1 {
      newHeaders := newHeaders[panelCountIndex := "panel_width"];
    }
    assert newHeaders == RenamedHeaders(headers);
    var header := JoinWith(KeepOthers(newHeaders, lengthIndex), ',');
    var data := lines[1..];
    var rows := [];
    var i := 0;
    while i < |data|
      invariant 0 <= i <= |data|
      invariant rows == DataRows(data[..i], lengthIndex)
    {
      assert data[..i + 1][..i] == data[..i];
      var pushed := TransformLine(data[i], lengthIndex);
      rows := rows + pushed;
      i := i + 1;
    }
    assert data[..i] == data;
    out := JoinWith([header] + rows, '\n');
  }

  /** One turn of the row loop: what it pushes for a line. */
  method TransformLine(line: string, lengthIndex: int) returns (pushed: seq<string>)
    ensures pushed == if IsBlank(line) then [] else [DataRow(line, lengthIndex)]
  {
    BlankIffTrimmedEmpty(line);
    if Trim(line) == [] {
      return [];
    }
    var values := SplitOn(line, ',');
    if lengthIndex != -1 {
      values := RemoveAt(values, lengthIndex);
    }
    pushed := [JoinWith(values, ',')];
  }

  /** A data line passes through unchanged when there is no `length`
      column, and when it is too short to reach the `length` index. */
  lemma RowIntact(line: string, lengthIndex: int)
    requires lengthIndex == -1 || lengthIndex >= |SplitOn(line, ',')|
    ensures DataRow(line, lengthIndex) == line
  {
    JoinSplit(line, ',');
  }

  /** When the `length` index falls inside a line, exactly that field is
      gone and the others keep their order. */
  lemma RowWithoutLength(line: string, lengthIndex: int)
    requires 0 <= lengthIndex < |SplitOn(line, ',')|
    requires |SplitOn(line, ',')| >= 2
    ensures var values := SplitOn(line, ',');
      SplitOn(DataRow(line, lengthIndex), ',') == RemoveAt(values, lengthIndex)
  {
    var values := SplitOn(line, ',');
    var r := RemoveAt(values, lengthIndex);
    SplitPiecesFree(line, ',');
    RemoveAtKeepsOrder(values, lengthIndex);
    assert forall k :: 0 <= k < |r| ==> ',' !in r[k] by {
      forall k | 0 <= k < |r|
        ensures ',' !in r[k]
      {
        if k >= lengthIndex {
          assert r[k] == values[k + 1];
        }
      }
    }
    SplitJoin(r, ',');
  }

  /** One output row per non-blank data line. */
  lemma {:induction false} DataRowsCount(lines: seq<string>, lengthIndex: int)
    ensures |DataRows(lines, lengthIndex)| == |NonBlank(lines)|
  {
    if lines != [] {
      DataRowsCount(lines[..|lines| - 1], lengthIndex);
    }
  }

  lemma DataRowFree(line: string, lengthIndex: int)
    requires '\n' !in line
    ensures '\n' !in DataRow(line, lengthIndex)
  {
    var values := SplitOn(line, ',');
    SplitPiecesWithout(line, ',', '\n');
    var kept := if lengthIndex != -1 then RemoveAt(values, lengthIndex) else values;
    assert forall k :: 0 <= k < |kept| ==> '\n' !in kept[k];
    JoinExcludes(kept, ',', '\n');
  }

  lemma {:induction false} DataRowsFree(lines: seq<string>, lengthIndex: int)
    requires forall i :: 0 <= i < |lines| ==> '\n' !in lines[i]
    ensures forall i :: 0 <= i < |DataRows(lines, lengthIndex)| ==> '\n' !in DataRows(lines, lengthIndex)[i]
  {
    if lines != [] {
      var n := |lines| - 1;
      var front := DataRows(lines[..n], lengthIndex);
      DataRowsFree(lines[..n], lengthIndex);
      DataRowFree(lines[n], lengthIndex);
      var last := if IsBlank(lines[n]) then [] else [DataRow(lines[n], lengthIndex)];
      assert DataRows(lines, lengthIndex) == front + last;
      forall i | 0 <= i < |front + last|
        ensures '\n' !in (front + last)[i]
      {
        if i >= |front| {
          assert (front + last)[i] == last[i - |front|];
        }
      }
    }
  }

  lemma RemoveAtWithout(xs: seq<string>, i: int, c: char)
    requires forall k :: 0 <= k < |xs| ==> c !in xs[k]
    ensures forall k :: 0 <= k < |RemoveAt(xs, i)| ==> c !in RemoveAt(xs, i)[k]
  {
    if 0 <= i < |xs| {
      RemoveAtKeepsOrder(xs, i);
      forall k | 0 <= k < |xs| - 1
        ensures c !in RemoveAt(xs, i)[k]
      {
        if k >= i {
          assert RemoveAt(xs, i)[k] == xs[k + 1];
        }
      }
    }
  }

  lemma HeaderLineFree(header: string)
    requires '\n' !in header
    ensures '\n' !in HeaderLine(SplitOn(header, ','))
  {
    var headers := SplitOn(header, ',');
    var li := IndexOf(headers, "length");
    var renamed := RenamedHeaders(headers);
    SplitPiecesWithout(header, ',', '\n');
    assert '\n' !in "panel_width";
    assert forall k :: 0 <= k < |renamed| ==> '\n' !in renamed[k];
    KeepOthersRemoves(renamed, li);
    RemoveAtWithout(renamed, li, '\n');
    JoinExcludes(KeepOthers(renamed, li), ',', '\n');
  }

  /** The output is the header line followed by one line per non-blank data
      line, so it has one line more than the input has non-blank data lines. */
  lemma ModifiedLines(csv: string)
    ensures var lines := SplitOn(csv, '\n');
      var headers := SplitOn(lines[0], ',');
      SplitOn(ModifiedCsv(csv), '\n') == [HeaderLine(headers)] + DataRows(lines[1..], IndexOf(headers, "length"))
    ensures |SplitOn(ModifiedCsv(csv), '\n')| == 1 + |NonBlank(SplitOn(csv, '\n')[1..])|
  {
    var lines := SplitOn(csv, '\n');
    var headers := SplitOn(lines[0], ',');
    var li := IndexOf(headers, "length");
    var rows := DataRows(lines[1..], li);
    SplitPiecesFree(csv, '\n');
    DataRowsFree(lines[1..], li);
    DataRowsCount(lines[1..], li);
    HeaderLineFree(lines[0]);
    var all := [HeaderLine(headers)] + rows;
    assert forall k :: 0 <= k < |all| ==> '\n' !in all[k] by {
      forall k | 0 <= k < |all|
        ensures '\n' !in all[k]
      {
        if k > 0 {
          assert all[k] == rows[k - 1];
        }
      }
    }
    SplitJoin(all, '\n');
  }
}
