/**
 * The export and import scripts as a pair: under the conditions below,
 * `parseCSV(convertToCSV(rows))` gives back `rows`, nulls included.
 *
 * The conditions are what the two formats leave ambiguous: a string must
 * not be empty (it would come back as null), must not hold a double quote,
 * backslash or line break (the exporter does not escape them), and must
 * not look like a number in a column the importer converts. Numbers must
 * not sit in one of the six text columns. With a single column a data line
 * holding a null or a blank string would be blank and skipped.
 */
module CsvRoundTrip {
  import opened JsText
  import opened JsValue
  import opened CsvRecords
  import opened CsvExport
  import opened CsvImport

  /** The value text the importer's splitter yields for an exported cell. */
  function Unquoted(c: Cell): string
  {
    match c
    case CUndef => ""
    case CNull => ""
    case CStr(s) => s
    case CNum(d) => DecimalText(d)
  }

  /** A cell in column `header` that survives export and import. `single`
      says whether the table has only that one column. */
  predicate CellOk(header: string, c: Cell, single: bool)
  {
    match c
    case CUndef => false
    case CNull => !single
    case CStr(s) =>
      && s != [] && '"' !in s && '\\' !in s && '\n' !in s
      && (IsTextColumn(header) || !LooksNumeric(s))
      && (single ==> !IsBlank(s))
    case CNum(d) => IsCanonical(d) && !IsTextColumn(header)
  }

  /** A cell the line splitter reads back whole: no quote or backslash in
      its text. */
  predicate Scannable(c: Cell)
  {
    match c
    case CUndef => false
    case CNull => true
    case CStr(s) => '"' !in s && '\\' !in s
    case CNum(d) => IsCanonical(d)
  }

  /** Every row has the first row's keys, which are distinct column names
      without commas or line breaks, and every cell survives the trip. */
  predicate Exportable(rows: seq<Row>)
  {
    rows != [] ==>
      var keys := Keys(rows[0]);
      && |keys| >= 1 && Distinct(keys)
      && (forall k :: 0 <= k < |keys| ==> ',' !in keys[k] && '\n' !in keys[k])
      && (forall i :: 0 <= i < |rows| ==> Keys(rows[i]) == keys)
      && (forall i, j :: 0 <= i < |rows| && 0 <= j < |rows[i]| ==> CellOk(keys[j], rows[i][j].val, |keys| == 1))
  }

  function Vals(row: Row): (cs: seq<Cell>)
    ensures |cs| == |row|
  {
    seq(|row|, i requires 0 <= i < |row| => row[i].val)
  }

  function Texts(cs: seq<Cell>): (ts: seq<string>)
    ensures |ts| == |cs|
  {
    seq(|cs|, i requires 0 <= i < |cs| => CellText(cs[i]))
  }

  function Units(cs: seq<Cell>): (us: seq<string>)
    ensures |us| == |cs|
  {
    seq(|cs|, i requires 0 <= i < |cs| => Unquoted(cs[i]))
  }

  lemma DecimalTextFree(d: Decimal)
    requires IsCanonical(d)
    ensures '"' !in DecimalText(d) && '\\' !in DecimalText(d) && ',' !in DecimalText(d)
    ensures DecimalText(d) != []
    ensures !IsSpace(DecimalText(d)[0]) && !IsSpace(DecimalText(d)[|DecimalText(d)| - 1])
  {
    DigitsFree(d.whole);
    DigitsFree(d.frac);
    var t := DecimalText(d);
    assert IsDigit(d.whole[0]);
    if d.frac == [] {
      assert t[|t| - 1] == d.whole[|d.whole| - 1];
      assert IsDigit(d.whole[|d.whole| - 1]);
    } else {
      assert t[|t| - 1] == d.frac[|d.frac| - 1];
      assert IsDigit(d.frac[|d.frac| - 1]);
    }
  }

  /** Text without quotes, backslashes and (outside quotes) commas is copied into the value. */
  lemma {:induction false} ScanPlain(w: string, rest: string, inQuotes: bool, cur: string, acc: seq<string>)
    requires '"' !in w && '\\' !in w
    requires !inQuotes ==> ',' !in w
    ensures Scan(w + rest, false, inQuotes, cur, acc) == Scan(rest, false, inQuotes, cur + w, acc)
  {
    if w == [] {
      assert w + rest == rest;
      assert cur + w == cur;
    } else {
      assert (w + rest)[0] == w[0];
      assert (w + rest)[1..] == w[1..] + rest;
      ScanPlain(w[1..], rest, inQuotes, cur + [w[0]], acc);
      assert cur + [w[0]] + w[1..] == cur + w;
    }
  }

  /** An exported cell scans back to its value text. */
  lemma ScanCell(c: Cell, rest: string, acc: seq<string>)
    requires Scannable(c)
    ensures Scan(CellText(c) + rest, false, false, [], acc) == Scan(rest, false, false, Unquoted(c), acc)
  {
    match c
    case CNull =>
      assert CellText(c) + rest == rest;
    case CStr(s) =>
      if ',' in s {
        assert CellText(c) + rest == "\"" + (s + ("\"" + rest));
        QuoteDropped(s + ("\"" + rest), false, [], acc);
        ScanPlain(s, "\"" + rest, true, [], acc);
        assert [] + s == s;
        QuoteDropped(rest, true, s, acc);
      } else {
        ScanPlain(s, rest, false, [], acc);
        assert [] + s == s;
      }
    case CNum(d) =>
      DecimalTextFree(d);
      ScanPlain(DecimalText(d), rest, false, [], acc);
      assert [] + DecimalText(d) == DecimalText(d);
  }

  lemma JoinTexts(cs: seq<Cell>)
    requires |cs| >= 2
    ensures JoinWith(Texts(cs), ',') == CellText(cs[0]) + ([','] + JoinWith(Texts(cs[1..]), ','))
  {
    assert Texts(cs)[1..] == Texts(cs[1..]);
  }

  lemma UnitsCons(cs: seq<Cell>)
    requires |cs| >= 1
    ensures Units(cs) == [Unquoted(cs[0])] + Units(cs[1..])
  {
  }

  lemma ScanComma(tail: string, cur: string, acc: seq<string>)
    ensures Scan([','] + tail, false, false, cur, acc) == Scan(tail, false, false, [], acc + [cur])
  {
    assert ([','] + tail)[1..] == tail;
  }

  /** A line of exported cells splits back into their value texts. */
  lemma {:induction false} ScanJoin(cs: seq<Cell>, acc: seq<string>)
    requires |cs| >= 1
    requires forall k :: 0 <= k < |cs| ==> Scannable(cs[k])
    ensures Scan(JoinWith(Texts(cs), ','), false, false, [], acc) == acc + Units(cs)
  {
    var u := Unquoted(cs[0]);
    UnitsCons(cs);
    if |cs| == 1 {
      ScanCell(cs[0], [], acc);
      assert CellText(cs[0]) + [] == CellText(cs[0]);
    } else {
      var tail := JoinWith(Texts(cs[1..]), ',');
      JoinTexts(cs);
      ScanCell(cs[0], [','] + tail, acc);
      ScanComma(tail, u, acc);
      ScanJoin(cs[1..], acc + [u]);
    }
  }

  /** An exported number is read back as the same number. */
  lemma NumRoundTrip(header: string, d: Decimal)
    requires IsCanonical(d) && !IsTextColumn(header)
    ensures ImportValue(header, Some(DecimalText(d))) == CNum(d)
  {
    var t := DecimalText(d);
    DecimalTextFree(d);
    TrimNoEdgeSpace(t);
    CanonicalOfText(d);
    assert StripQuotes(t) == t;
    assert LooksNumeric(t);
  }

  /** Importing one exported cell gives the cell back. */
  lemma CellRoundTrip(header: string, c: Cell, single: bool)
    requires CellOk(header, c, single)
    ensures ImportValue(header, Some(Unquoted(c))) == c
  {
    if c.CNum? {
      NumRoundTrip(header, c.d);
    } else if c.CStr? {
      assert StripQuotes(c.s) == c.s;
    }
  }

  /** An exported data line is never blank. */
  lemma RowLineNotBlank(headers: seq<string>, cs: seq<Cell>, single: bool)
    requires |cs| == |headers| >= 1 && single == (|headers| == 1)
    requires forall k :: 0 <= k < |cs| ==> CellOk(headers[k], cs[k], single)
    ensures !IsBlank(JoinWith(Texts(cs), ','))
  {
    var line := JoinWith(Texts(cs), ',');
    var t0 := CellText(cs[0]);
    if |cs| >= 2 {
      assert Texts(cs)[1..] == Texts(cs[1..]);
      assert line == t0 + [','] + JoinWith(Texts(cs[1..]), ',');
      assert line[|t0|] == ',';
      NotBlank(line, |t0|);
    } else {
      assert line == t0;
      match cs[0]
      case CStr(s) =>
        if ',' in s {
          assert line[0] == '"';
          NotBlank(line, 0);
        }
      case CNum(d) =>
        DecimalTextFree(d);
        NotBlank(line, 0);
    }
  }

  lemma CellTextsOfRow(keys: seq<string>, row: Row)
    requires Distinct(keys) && Keys(row) == keys
    ensures CellTexts(keys, row) == Texts(Vals(row))
  {
    forall j | 0 <= j < |keys|
      ensures CellTexts(keys, row)[j] == Texts(Vals(row))[j]
    {
      LookupDistinct(row, j);
    }
  }

  lemma FieldsOfRow(keys: seq<string>, row: Row)
    requires Keys(row) == keys
    requires forall j :: 0 <= j < |row| ==> CellOk(keys[j], row[j].val, |keys| == 1)
    ensures ImportedFields(keys, Units(Vals(row))) == row
  {
    var us := Units(Vals(row));
    forall j | 0 <= j < |keys|
      ensures ImportedFields(keys, us)[j] == row[j]
    {
      CellRoundTrip(keys[j], row[j].val, |keys| == 1);
      assert us[j] == Unquoted(row[j].val);
    }
  }

  /** An exported data line splits back into the value texts of its cells. */
  lemma SplitRowLine(keys: seq<string>, row: Row)
    requires |keys| >= 1 && Distinct(keys) && Keys(row) == keys
    requires forall j :: 0 <= j < |row| ==> CellOk(keys[j], row[j].val, |keys| == 1)
    ensures SplitLine(RowLine(keys, row)) == Units(Vals(row))
    ensures !IsBlank(RowLine(keys, row))
  {
    var cs := Vals(row);
    CellTextsOfRow(keys, row);
    forall k | 0 <= k < |cs|
      ensures Scannable(cs[k])
    {
      assert CellOk(keys[k], cs[k], |keys| == 1);
    }
    ScanJoin(cs, []);
    assert [] + Units(cs) == Units(cs);
    RowLineNotBlank(keys, cs, |keys| == 1);
  }

  /** Importing an exported data line gives the row back. */
  lemma RowRoundTrip(keys: seq<string>, row: Row)
    requires |keys| >= 1 && Distinct(keys) && Keys(row) == keys
    requires forall j :: 0 <= j < |row| ==> CellOk(keys[j], row[j].val, |keys| == 1)
    ensures RecordOf(keys, SplitLine(RowLine(keys, row))) == row
    ensures !IsBlank(RowLine(keys, row))
  {
    SplitRowLine(keys, row);
    RecordFields(keys, Units(Vals(row)));
    FieldsOfRow(keys, row);
  }

  lemma {:induction false} RecordsOfNonBlank(headers: seq<string>, lines: seq<string>)
    requires forall i :: 0 <= i < |lines| ==> !IsBlank(lines[i])
    ensures |RecordsOf(headers, lines)| == |lines|
    ensures forall i :: 0 <= i < |lines| ==> RecordsOf(headers, lines)[i] == RecordOf(headers, SplitLine(lines[i]))
  {
    if lines != [] {
      var n := |lines| - 1;
      var front := RecordsOf(headers, lines[..n]);
      RecordsOfNonBlank(headers, lines[..n]);
      assert !IsBlank(lines[n]);
      assert RecordsOf(headers, lines) == front + [RecordOf(headers, SplitLine(lines[n]))];
      forall i | 0 <= i < |lines|
        ensures RecordsOf(headers, lines)[i] == RecordOf(headers, SplitLine(lines[i]))
      {
        if i < n {
          assert lines[..n][i] == lines[i];
        }
      }
    }
  }

  /** Exportable rows meet the conditions of `ExportLines`. */
  lemma ExportableLines(rows: seq<Row>)
    requires rows != [] && Exportable(rows)
    ensures NoLineBreaks(rows)
    ensures forall i, j :: 0 <= i < |rows| && 0 <= j < |rows[i]| && rows[i][j].val.CNum? ==> IsCanonical(rows[i][j].val.d)
  {
    var keys := Keys(rows[0]);
    forall i, j | 0 <= i < |rows| && 0 <= j < |rows[i]|
      ensures '\n' !in rows[i][j].key && (rows[i][j].val.CStr? ==> '\n' !in rows[i][j].val.s)
      ensures rows[i][j].val.CNum? ==> IsCanonical(rows[i][j].val.d)
    {
      assert Keys(rows[i])[j] == keys[j];
      assert CellOk(keys[j], rows[i][j].val, |keys| == 1);
    }
  }

  /** Parsing an export gives back the exported rows. */
  lemma ExportImportRoundTrip(rows: seq<Row>)
    requires Exportable(rows)
    ensures ParseCsvSpec(ConvertToCsv(rows)) == rows
  {
    if rows == [] {
      assert SplitOn("", '\n') == [[]];
    } else {
      var keys := Keys(rows[0]);
      ExportableLines(rows);
      ExportLines(rows);
      var lines := SplitOn(ConvertToCsv(rows), '\n');
      SplitJoin(keys, ',');
      assert lines[1..] == RowLines(keys, rows);
      forall i | 0 <= i < |rows|
        ensures RecordOf(keys, SplitLine(RowLines(keys, rows)[i])) == rows[i]
        ensures !IsBlank(RowLines(keys, rows)[i])
      {
        RowRoundTrip(keys, rows[i]);
      }
      RecordsOfNonBlank(keys, RowLines(keys, rows));
    }
  }
}
