/**
 * `parseCSV` and the batched upsert loop of
 * scripts/import-glazing-requirements.js. The line splitter walks each
 * character once, toggling quoted mode on a double quote that does not
 * follow a backslash; the header line is split on every comma.
 */
module CsvImport {
  import opened JsText
  import opened JsValue
  import opened CsvRecords

  /** The character loop of `parseCSV` from the current position: `rest` is
      what is left of the line, `afterBackslash` whether the previous
      character was a backslash, `cur` the value being built and `acc` the
      values already pushed. */
  function Scan(rest: string, afterBackslash: bool, inQuotes: bool, cur: string, acc: seq<string>): seq<string>
    decreases |rest|
  {
    if rest == [] then acc + [cur]
    else
      var c := rest[0];
      if c == '"' && !afterBackslash then Scan(rest[1..], c == '\\', !inQuotes, cur, acc)
      else if c == ',' && !inQuotes then Scan(rest[1..], c == '\\', inQuotes, [], acc + [cur])
      else Scan(rest[1..], c == '\\', inQuotes, cur + [c], acc)
  }

  /** The values of one data line. */
  function SplitLine(line: string): seq<string>
  {
    Scan(line, false, false, [], [])
  }

  /** The character loop of `parseCSV` for one line. */
  method SplitQuotedLine(line: string) returns (values: seq<string>)
    ensures values == SplitLine(line)
  {
    values := [];
    var inQuotes := false;
    var current := "";
    var i := 0;
    while i < |line|
      invariant 0 <= i <= |line|
      invariant Scan(line[i..], i > 0 && line[i - 1] == '\\', inQuotes, current, values) == SplitLine(line)
    {
      var c := line[i];
      assert line[i..][1..] == line[i + 1..];
      if c == '"' && (i == 0 || line[i - 1] != '\\') {
        inQuotes := !inQuotes;
      } else if c == ',' && !inQuotes {
        values := values + [current];
        current := "";
      } else {
        current := current + [c];
      }
      i := i + 1;
    }
    values := values + [current];
  }

  /** `values[index]`, undefined past the end. */
  function Raw(values: seq<string>, index: nat): Option<string>
  {
    if index < |values| then Some(values[index]) else None
  }

  /** Strips one pair of surrounding double quotes (`substring(1, length - 1)`);
      a lone `"` starts and ends with a quote and is left as it is. */
  function StripQuotes(s: string): (r: string)
    ensures '"' !in s ==> r == s
  {
    if |s| >= 2 && s[0] == '"' && s[|s| - 1] == '"' then s[1..|s| - 1] else s
  }

  /** The value `parseCSV` stores for one header. */
  function ImportValue(header: string, raw: Option<string>): Cell
  {
    match raw
    case None => CUndef
    case Some(s) =>
      if s == [] then CNull
      else
        var v := StripQuotes(s);
        if !IsTextColumn(header) && LooksNumeric(v) then CNum(ToDecimal(Trim(v))) else CStr(v)
  }

  /** A missing value is undefined, an empty one null; the six text columns
      never hold numbers; a number is held in canonical form and is what
      `Number` gives for the unquoted text. */
  lemma ImportValueCases(header: string, raw: Option<string>)
    ensures var c := ImportValue(header, raw);
      && (c == CUndef <==> raw == None)
      && (c == CNull <==> raw == Some([]))
      && (IsTextColumn(header) ==> !c.CNum?)
      && (c.CNum? ==> IsCanonical(c.d))
      && (raw.Some? && raw.value != [] && !IsTextColumn(header) && LooksNumeric(StripQuotes(raw.value))
          ==> c == CNum(ToDecimal(Trim(StripQuotes(raw.value)))))
  {
  }

  /** The object `headers.forEach` builds from one line's values. */
  function RecordOf(headers: seq<string>, values: seq<string>): Row
  {
    if headers == [] then []
    else
      var n := |headers| - 1;
      Put(RecordOf(headers[..n], values), headers[n], ImportValue(headers[n], Raw(values, n)))
  }

  method BuildObject(headers: seq<string>, values: seq<string>) returns (obj: Row)
    ensures obj == RecordOf(headers, values)
  {
    obj := [];
    var j := 0;
    while j < |headers|
      invariant 0 <= j <= |headers|
      invariant obj == RecordOf(headers[..j], values)
    {
      assert headers[..j + 1][..j] == headers[..j];
      obj := Put(obj, headers[j], ImportValue(headers[j], Raw(values, j)));
      j := j + 1;
    }
    assert headers[..j] == headers;
  }

  /** The records one data line contributes: none when it is blank. */
  function LineRecords(headers: seq<string>, line: string): (r: seq<Row>)
    ensures |r| <= 1
  {
    if IsBlank(line) then [] else [RecordOf(headers, SplitLine(line))]
  }

  /** The `filter` and `map` steps of `parseCSV` for one data line. */
  method ParseDataLine(headers: seq<string>, line: string) returns (recs: seq<Row>)
    ensures recs == LineRecords(headers, line)
  {
    BlankIffTrimmedEmpty(line);
    if Trim(line) == [] {
      recs := [];
    } else {
      var values := SplitQuotedLine(line);
      var obj := BuildObject(headers, values);
      recs := [obj];
    }
  }

  /** The records of the data lines, in order. */
  function RecordsOf(headers: seq<string>, lines: seq<string>): seq<Row>
  {
    if lines == [] then []
    else RecordsOf(headers, lines[..|lines| - 1]) + LineRecords(headers, lines[|lines| - 1])
  }

  /** What `parseCSV(csv)` returns. */
  function ParseCsvSpec(csv: string): seq<Row>
  {
    var lines := SplitOn(csv, '\n');
    RecordsOf(SplitOn(lines[0], ','), lines[1..])
  }

  /** `parseCSV(csv)` */
  method ParseCsv(csv: string) returns (records: seq<Row>)
    ensures records == ParseCsvSpec(csv)
  {
    var lines := SplitOn(csv, '\n');
    var headers := SplitOn(lines[0], ',');
    var data := lines[1..];
    records := [];
    var i := 0;
    while i < |data|
      invariant 0 <= i <= |data|
      invariant records == RecordsOf(headers, data[..i])
    {
      assert data[..i + 1][..i] == data[..i];
      var recs := ParseDataLine(headers, data[i]);
      records := records + recs;
      i := i + 1;
    }
    assert data[..i] == data;
  }

  /** Each non-blank data line gives exactly one record, in line order. */
  lemma {:induction false} RecordsFollowLines(headers: seq<string>, lines: seq<string>)
    ensures |RecordsOf(headers, lines)| == |NonBlank(lines)|
    ensures forall k :: 0 <= k < |NonBlank(lines)| ==>
      RecordsOf(headers, lines)[k] == RecordOf(headers, SplitLine(NonBlank(lines)[k]))
  {
    if lines != [] {
      RecordsFollowLines(headers, lines[..|lines| - 1]);
    }
  }

  /** With distinct headers, a record has exactly the header names as keys,
      in header order, and the field at position j holds the conversion of
      the j-th value (undefined when the line has fewer values). */
  lemma {:induction false} RecordFields(headers: seq<string>, values: seq<string>)
    requires Distinct(headers)
    ensures RecordOf(headers, values) == ImportedFields(headers, values)
    ensures Keys(RecordOf(headers, values)) == headers
  {
    if headers != [] {
      var n := |headers| - 1;
      var front := headers[..n];
      assert Distinct(front);
      RecordFields(front, values);
      assert headers[n] !in front;
      ImportedFieldsSnoc(headers, values);
    }
  }

  function ImportedFields(headers: seq<string>, values: seq<string>): (r: Row)
    ensures |r| == |headers|
  {
    seq(|headers|, j requires 0 <= j < |headers| => Field(headers[j], ImportValue(headers[j], Raw(values, j))))
  }

  lemma ImportedFieldsSnoc(headers: seq<string>, values: seq<string>)
    requires headers != []
    ensures ImportedFields(headers, values)
      == ImportedFields(headers[..|headers| - 1], values)
         + [Field(headers[|headers| - 1], ImportValue(headers[|headers| - 1], Raw(values, |headers| - 1)))]
  {
  }

  // ---- quote handling ----

  /** Whether the character at `i` toggles quoted mode: a `"` not preceded by a backslash. */
  predicate IsToggle(line: string, i: int)
    requires 0 <= i < |line|
  {
    line[i] == '"' && (i == 0 || line[i - 1] != '\\')
  }

  /** Whether position `i` is inside quotes: an odd number of toggling
      quotes comes before it. */
  predicate QuotedAt(line: string, i: int)
    requires 0 <= i <= |line|
  {
    if i == 0 then false else QuotedAt(line, i - 1) != IsToggle(line, i - 1)
  }

  /** Number of commas at or after `i` that stand outside quotes. */
  function UnquotedCommasFrom(line: string, i: int): nat
    requires 0 <= i <= |line|
    decreases |line| - i
  {
    if i == |line| then 0
    else (if line[i] == ',' && !QuotedAt(line, i) then 1 else 0) + UnquotedCommasFrom(line, i + 1)
  }

  lemma {:induction false} ScanCount(line: string, i: int, cur: string, acc: seq<string>)
    requires 0 <= i <= |line|
    ensures |Scan(line[i..], i > 0 && line[i - 1] == '\\', QuotedAt(line, i), cur, acc)|
      == |acc| + 1 + UnquotedCommasFrom(line, i)
    decreases |line| - i
  {
    if i < |line| {
      assert line[i..][1..] == line[i + 1..];
      var c := line[i];
      if c == '"' && !(i > 0 && line[i - 1] == '\\') {
        ScanCount(line, i + 1, cur, acc);
      } else if c == ',' && !QuotedAt(line, i) {
        ScanCount(line, i + 1, [], acc + [cur]);
      } else {
        ScanCount(line, i + 1, cur + [c], acc);
      }
    }
  }

  /** A line yields one value more than it has commas outside quotes. */
  lemma ValueCount(line: string)
    ensures |SplitLine(line)| == UnquotedCommasFrom(line, 0) + 1
  {
    ScanCount(line, 0, [], []);
    assert line[0..] == line;
  }

  /** A backslash followed by a double quote is kept, both characters, in the value. */
  lemma EscapedQuoteKept(rest: string, afterBackslash: bool, inQuotes: bool, cur: string, acc: seq<string>)
    ensures Scan("\\\"" + rest, afterBackslash, inQuotes, cur, acc) == Scan(rest, false, inQuotes, cur + "\\\"", acc)
  {
    var s := "\\\"" + rest;
    assert s[1..] == "\"" + rest;
    assert s[1..][1..] == rest;
    assert cur + ['\\'] + ['"'] == cur + "\\\"";
  }

  /** A toggling quote is dropped from the value and flips quoted mode. */
  lemma QuoteDropped(rest: string, inQuotes: bool, cur: string, acc: seq<string>)
    ensures Scan("\"" + rest, false, inQuotes, cur, acc) == Scan(rest, false, !inQuotes, cur, acc)
  {
    assert ("\"" + rest)[1..] == rest;
  }

  // ---- batched import ----

  const BatchSize := 50

  /** `records.slice(start, start + BATCH_SIZE)`: a full batch, or the
      non-empty rest at the end. */
  function Batch(records: seq<Row>, start: nat): (b: seq<Row>)
    requires start <= |records|
    ensures |b| <= BatchSize && (start < |records| ==> 1 <= |b|)
    ensures start + BatchSize <= |records| ==> |b| == BatchSize
    ensures start + |b| == |records| || |b| == BatchSize
  {
    var end := if start + BatchSize <= |records| then start + BatchSize else |records|;
    records[start..end]
  }

  function Flatten(batches: seq<seq<Row>>): seq<Row>
  {
    if batches == [] then [] else Flatten(batches[..|batches| - 1]) + batches[|batches| - 1]
  }

  /** The first `n` batches the loop cuts, in order. */
  function Batches(records: seq<Row>, n: nat): (bs: seq<seq<Row>>)
    requires n == 0 || (n - 1) * BatchSize < |records|
    ensures |bs| == n
  {
    if n == 0 then [] else Batches(records, n - 1) + [Batch(records, (n - 1) * BatchSize)]
  }

  /** Batch `k` starts at record `k * 50`. */
  lemma {:induction false} BatchesAt(records: seq<Row>, n: nat, k: nat)
    requires n == 0 || (n - 1) * BatchSize < |records|
    requires k < n
    ensures Batches(records, n)[k] == Batch(records, k * BatchSize)
  {
    if k < n - 1 {
      BatchesAt(records, n - 1, k);
    }
  }

  /** The first `n` batches together are the first `n * 50` records, or all
      of them: no record is skipped, repeated or reordered. */
  lemma {:induction false} BatchesFlatten(records: seq<Row>, n: nat)
    requires n == 0 || (n - 1) * BatchSize < |records|
    ensures Flatten(Batches(records, n)) == records[..if n * BatchSize <= |records| then n * BatchSize else |records|]
  {
    if n > 0 {
      var front := Batches(records, n - 1);
      var i := (n - 1) * BatchSize;
      var batch := Batch(records, i);
      BatchesFlatten(records, n - 1);
      FlattenSnoc(front, batch);
      assert records[..i] + batch == records[..i + |batch|];
    }
  }

  /** Batches enough to reach the end hold every record, in order. */
  lemma BatchesCover(records: seq<Row>, n: nat)
    requires |records| <= n * BatchSize < |records| + BatchSize
    ensures Flatten(Batches(records, n)) == records
  {
    BatchesFlatten(records, n);
    assert records[..|records|] == records;
  }

  /** Every batch holds 1 to 50 records, and all but the last exactly 50. */
  lemma BatchSizes(records: seq<Row>, n: nat, k: nat)
    requires n == 0 || (n - 1) * BatchSize < |records|
    requires k < n
    ensures 1 <= |Batches(records, n)[k]| <= BatchSize
    ensures k < n - 1 ==> |Batches(records, n)[k]| == BatchSize
  {
    BatchesAt(records, n, k);
  }

  /** Records in the batches whose upsert succeeded. */
  function Succeeded(batches: seq<seq<Row>>, failed: set<nat>): nat
  {
    if batches == [] then 0
    else
      var n := |batches| - 1;
      Succeeded(batches[..n], failed) + (if n in failed then 0 else |batches[n]|)
  }

  /** The batch loop of `importGlazingRequirements`. The database is not
      modelled: `failed` holds the numbers (from 0) of the batches whose
      upsert returns an error. Every record lands in exactly one batch and is
      counted once, as a success or as an error. */
  method ImportBatches(records: seq<Row>, failed: set<nat>)
    returns (batches: seq<seq<Row>>, successCount: nat, errorCount: nat)
    ensures |records| <= |batches| * BatchSize < |records| + BatchSize
    ensures batches == Batches(records, |batches|)
    ensures successCount == Succeeded(batches, failed)
    ensures successCount + errorCount == |records|
  {
    batches := [];
    successCount := 0;
    errorCount := 0;
    var i := 0;
    while i < |records|
      invariant i == |batches| * BatchSize < |records| + BatchSize
      invariant batches == Batches(records, |batches|)
      invariant successCount == Succeeded(batches, failed)
      invariant successCount + errorCount == if i <= |records| then i else |records|
    {
      var batch := Batch(records, i);
      SucceededSnoc(batches, batch, failed);
      if |batches| in failed {
        errorCount := errorCount + |batch|;
      } else {
        successCount := successCount + |batch|;
      }
      batches := batches + [batch];
      i := i + BatchSize;
    }
  }

  lemma FlattenSnoc(batches: seq<seq<Row>>, batch: seq<Row>)
    ensures Flatten(batches + [batch]) == Flatten(batches) + batch
  {
    assert (batches + [batch])[..|batches|] == batches;
  }

  lemma SucceededSnoc(batches: seq<seq<Row>>, batch: seq<Row>, failed: set<nat>)
    ensures Succeeded(batches + [batch], failed) == Succeeded(batches, failed) + (if |batches| in failed then 0 else |batch|)
  {
    assert (batches + [batch])[..|batches|] == batches;
  }
}
