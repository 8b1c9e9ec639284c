/**
 * `convertToCSV` of scripts/export-glazing-requirements.js: the header is
 * the first row's keys, each row is written as the values of those keys in
 * header order, joined by commas, and the lines are joined by newlines.
 */
module CsvExport {
  import opened JsText
  import opened CsvRecords

  /** One field as the exporter writes it: null and undefined are empty, a
      string with a comma is wrapped in double quotes (inner quotes are not
      escaped), anything else is written as is. */
  function CellText(c: Cell): string
  {
    match c
    case CUndef => ""
    case CNull => ""
    case CStr(s) => if ',' in s then "\"" + s + "\"" else s
    case CNum(d) => DecimalText(d)
  }

  function CellTexts(headers: seq<string>, row: Row): (ts: seq<string>)
    ensures |ts| == |headers|
  {
    seq(|headers|, i requires 0 <= i < |headers| => CellText(Lookup(row, headers[i])))
  }

  /** A data line: the row's values for the header keys, in header order. */
  function RowLine(headers: seq<string>, row: Row): string
  {
    JoinWith(CellTexts(headers, row), ',')
  }

  function RowLines(headers: seq<string>, rows: seq<Row>): (ls: seq<string>)
    ensures |ls| == |rows|
  {
    seq(|rows|, i requires 0 <= i < |rows| => RowLine(headers, rows[i]))
  }

  /** `convertToCSV(arr)` */
  function ConvertToCsv(rows: seq<Row>): (csv: string)
    ensures rows == [] ==> csv == []
  {
    if rows == [] then ""
    else
      var headers := Keys(rows[0]);
      JoinWith([JoinWith(headers, ',')] + RowLines(headers, rows), '\n')
  }

  /** No text in the rows holds a line break. */
  predicate NoLineBreaks(rows: seq<Row>)
  {
    forall i, j :: 0 <= i < |rows| && 0 <= j < |rows[i]| ==>
      '\n' !in rows[i][j].key && (rows[i][j].val.CStr? ==> '\n' !in rows[i][j].val.s)
  }

  lemma CellTextNoBreak(c: Cell)
    requires c.CStr? ==> '\n' !in c.s
    requires c.CNum? ==> IsCanonical(c.d)
    ensures '\n' !in CellText(c)
  {
    if c.CNum? {
      DigitsFree(c.d.whole);
      DigitsFree(c.d.frac);
    }
  }

  /** When no text holds a line break, the export is one header line giving
      the first row's keys followed by one line per row, in order, with no
      trailing newline. */
  lemma ExportLines(rows: seq<Row>)
    requires rows != []
    requires NoLineBreaks(rows)
    requires forall i, j :: 0 <= i < |rows| && 0 <= j < |rows[i]| && rows[i][j].val.CNum? ==> IsCanonical(rows[i][j].val.d)
    ensures var headers := Keys(rows[0]);
      SplitOn(ConvertToCsv(rows), '\n') == [JoinWith(headers, ',')] + RowLines(headers, rows)
  {
    var headers := Keys(rows[0]);
    var lines := [JoinWith(headers, ',')] + RowLines(headers, rows);
    JoinExcludes(headers, ',', '\n');
    forall i | 0 <= i < |rows|
      ensures '\n' !in RowLine(headers, rows[i])
    {
      forall k | 0 <= k < |headers|
        ensures '\n' !in CellTexts(headers, rows[i])[k]
      {
        CellTextNoBreak(Lookup(rows[i], headers[k]));
      }
      JoinExcludes(CellTexts(headers, rows[i]), ',', '\n');
    }
    assert forall i :: 0 <= i < |lines| ==> '\n' !in lines[i] by {
      forall i | 0 <= i < |lines|
        ensures '\n' !in lines[i]
      {
        if i > 0 {
          assert lines[i] == RowLine(headers, rows[i - 1]);
        }
      }
    }
    SplitJoin(lines, '\n');
  }
}
