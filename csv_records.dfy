/**
 * The rows the glazing-requirements scripts move between the database and
 * CSV text. A row is a JavaScript object whose key order matters
 * (`Object.keys` gives the CSV header), so it is an ordered list of fields.
 * Numbers are kept as canonical decimal text: the digits JavaScript's
 * `String(n)` prints for a number in plain notation, and the digits
 * `Number(s)` denotes after leading zeros, trailing fraction zeros and the
 * sign of zero are normalised away.
 */
module CsvRecords {
  import opened JsText
  import opened JsValue

  /** A decimal number: sign, integer digits, fraction digits. */
  datatype Decimal = Decimal(neg: bool, whole: string, frac: string)

  /** The property values a glazing-requirements row holds. */
  datatype Cell = CUndef | CNull | CStr(s: string) | CNum(d: Decimal)

  datatype Field = Field(key: string, val: Cell)

  type Row = seq<Field>

  const Zero := Decimal(false, "0", "")

  /** The form `String(n)` prints: no superfluous leading or trailing zero, no `-0`. */
  predicate IsCanonical(d: Decimal)
  {
    && d.whole != [] && AllDigits(d.whole) && (d.whole[0] != '0' || d.whole == "0")
    && AllDigits(d.frac) && (d.frac == [] || d.frac[|d.frac| - 1] != '0')
    && !(d.neg && d.whole == "0" && d.frac == [])
  }

  function DecimalText(d: Decimal): string
  {
    (if d.neg then "-" else "") + d.whole + (if d.frac == [] then "" else "." + d.frac)
  }

  function StripLeadingZeros(s: string): (r: string)
    ensures r == [] || r[0] != '0'
    ensures AllDigits(s) ==> AllDigits(r)
  {
    if s != [] && s[0] == '0' then StripLeadingZeros(s[1..]) else s
  }

  function StripTrailingZeros(s: string): (r: string)
    ensures r == [] || r[|r| - 1] != '0'
    ensures AllDigits(s) ==> AllDigits(r)
  {
    if s != [] && s[|s| - 1] == '0' then StripTrailingZeros(s[..|s| - 1]) else s
  }

  /** The number a decimal literal denotes, in canonical form. */
  function Canonical(t: string): (d: Decimal)
    requires IsDecimalLiteral(t)
    ensures IsCanonical(d)
  {
    FromParts(HasSign(t) && t[0] == '-', SplitOn(Unsigned(t), '.'))
  }

  /** The canonical decimal for a sign and the digit strings around the point. */
  function FromParts(neg: bool, parts: seq<string>): (d: Decimal)
    requires 1 <= |parts| <= 2
    requires forall i :: 0 <= i < |parts| ==> AllDigits(parts[i])
    ensures IsCanonical(d)
  {
    var w := StripLeadingZeros(parts[0]);
    var whole := if w == [] then "0" else w;
    var frac := if |parts| == 2 then StripTrailingZeros(parts[1]) else [];
    var isZero := whole == "0" && frac == [];
    Decimal(neg && !isZero, whole, frac)
  }

  /** Trimmed text `Number` accepts: empty (which is 0) or a decimal literal. */
  predicate IsNumericText(t: string)
  {
    t == [] || IsDecimalLiteral(t)
  }

  /** Whether `Number(s)` is not NaN. */
  predicate LooksNumeric(s: string)
  {
    IsNumericText(Trim(s))
  }

  /** `Number(s)` for a string whose trimmed text `t` is numeric. */
  function ToDecimal(t: string): (d: Decimal)
    requires IsNumericText(t)
    ensures IsCanonical(d)
    ensures t == [] ==> d == Zero
  {
    if t == [] then Zero else Canonical(t)
  }

  function Keys(row: Row): (ks: seq<string>)
    ensures |ks| == |row|
    ensures forall i :: 0 <= i < |row| ==> ks[i] == row[i].key
  {
    seq(|row|, i requires 0 <= i < |row| => row[i].key)
  }

  /** The position of the first field with the key, or -1 when there is none. */
  function Find(row: Row, key: string): (i: int)
    ensures -1 <= i < |row|
    ensures i < 0 ==> forall j :: 0 <= j < |row| ==> row[j].key != key
    ensures i >= 0 ==> row[i].key == key && forall j :: 0 <= j < i ==> row[j].key != key
  {
    if row == [] then -1
    else if row[0].key == key then 0
    else
      var k := Find(row[1..], key);
      if k < 0 then -1 else k + 1
  }

  /** The first field with the key is the one `Find` gives. */
  lemma FindFirst(row: Row, key: string, i: int)
    requires 0 <= i < |row| && row[i].key == key
    requires forall j :: 0 <= j < i ==> row[j].key != key
    ensures Find(row, key) == i
  {
  }

  /** `obj[key]`: a missing key reads as undefined. */
  function Lookup(row: Row, key: string): (c: Cell)
    ensures (forall j :: 0 <= j < |row| ==> row[j].key != key) ==> c == CUndef
  {
    var i := Find(row, key);
    if i < 0 then CUndef else row[i].val
  }

  /** `obj[key] = v`: an existing key keeps its position and takes the new
      value; a new key goes at the end. Every other key reads as before. */
  function Put(row: Row, key: string, v: Cell): (r: Row)
    ensures Find(row, key) >= 0 ==> Keys(r) == Keys(row)
    ensures Find(row, key) < 0 ==> r == row + [Field(key, v)]
    ensures Lookup(r, key) == v
  {
    var i := Find(row, key);
    if i < 0 then
      var r := row + [Field(key, v)];
      FindFirst(r, key, |row|);
      r
    else
      var r := row[i := Field(key, v)];
      FindFirst(r, key, i);
      r
  }

  /** With distinct keys, each field is what its key reads. */
  lemma LookupDistinct(row: Row, j: int)
    requires Distinct(Keys(row)) && 0 <= j < |row|
    ensures Lookup(row, row[j].key) == row[j].val
  {
    var i := Find(row, row[j].key);
    assert Keys(row)[i] == Keys(row)[j];
  }

  /** Writing one key leaves every other key reading as before. */
  lemma PutOther(row: Row, key: string, v: Cell, other: string)
    requires other != key
    ensures Lookup(Put(row, key, v), other) == Lookup(row, other)
  {
    var r := Put(row, key, v);
    var i := Find(row, other);
    if i >= 0 {
      FindFirst(r, other, i);
    } else {
      assert forall j :: 0 <= j < |r| ==> r[j].key != other;
    }
  }

  /** The columns `parseCSV` never converts to numbers. */
  predicate IsTextColumn(header: string)
  {
    header in ["model", "section", "bay", "vent_type", "material_type", "notes"]
  }

  /** The unsigned part of a decimal's text splits at the point into its digit strings. */
  lemma SplitDecimalBody(whole: string, frac: string)
    requires AllDigits(whole) && AllDigits(frac) && frac != []
    ensures SplitOn(whole + ("." + frac), '.') == [whole, frac]
  {
    DigitsFree(whole);
    DigitsFree(frac);
    SplitPrefix(whole, "." + frac, '.');
    assert ("." + frac)[1..] == frac;
    SplitPrefix(frac, [], '.');
    assert frac + [] == frac;
    assert SplitOn("." + frac, '.') == [[]] + [frac];
    assert whole + [] == whole;
  }

  lemma SplitDigits(whole: string)
    requires AllDigits(whole)
    ensures SplitOn(whole, '.') == [whole]
  {
    DigitsFree(whole);
    SplitPrefix(whole, [], '.');
    assert whole + [] == whole;
  }

  /** The text of a canonical decimal without its sign. */
  function UnsignedText(d: Decimal): string
  {
    d.whole + (if d.frac == [] then "" else "." + d.frac)
  }

  lemma UnsignedTextParts(d: Decimal)
    requires IsCanonical(d)
    ensures SplitOn(UnsignedText(d), '.') == (if d.frac == [] then [d.whole] else [d.whole, d.frac])
  {
    if d.frac == [] {
      assert UnsignedText(d) == d.whole + [];
      assert d.whole + [] == d.whole;
      SplitDigits(d.whole);
    } else {
      SplitDecimalBody(d.whole, d.frac);
    }
  }

  lemma UnsignedOfText(d: Decimal)
    requires IsCanonical(d)
    ensures Unsigned(DecimalText(d)) == UnsignedText(d)
    ensures HasSign(DecimalText(d)) && DecimalText(d)[0] == '-' <==> d.neg
  {
    var t := DecimalText(d);
    var body := UnsignedText(d);
    assert body[0] == d.whole[0];
    assert IsDigit(d.whole[0]);
    if d.neg {
      assert t == "-" + body;
      assert t[1..] == body;
    } else {
      assert t == body;
    }
  }

  lemma FromCanonicalParts(d: Decimal)
    requires IsCanonical(d)
    ensures FromParts(d.neg, if d.frac == [] then [d.whole] else [d.whole, d.frac]) == d
  {
    StripLeadingCanonical(d.whole);
    StripTrailingCanonical(d.frac);
    if d.frac == [] {
      assert FromParts(d.neg, [d.whole]) == d;
    } else {
      assert FromParts(d.neg, [d.whole, d.frac]) == d;
    }
  }

  lemma StripTrailingCanonical(f: string)
    requires f == [] || f[|f| - 1] != '0'
    ensures StripTrailingZeros(f) == f
  {
  }

  /** A canonical decimal is the canonical form of its own text. */
  lemma CanonicalOfText(d: Decimal)
    requires IsCanonical(d)
    ensures IsDecimalLiteral(DecimalText(d))
    ensures Canonical(DecimalText(d)) == d
  {
    var t := DecimalText(d);
    var parts := if d.frac == [] then [d.whole] else [d.whole, d.frac];
    UnsignedOfText(d);
    UnsignedTextParts(d);
    assert SplitOn(Unsigned(t), '.') == parts;
    assert IsUnsignedDecimal(Unsigned(t));
    FromCanonicalParts(d);
    assert Canonical(t) == FromParts(d.neg, parts);
  }

  lemma DigitsFree(s: string)
    requires AllDigits(s)
    ensures '.' !in s && ',' !in s && '"' !in s && '\\' !in s && '\n' !in s
  {
  }

  lemma StripLeadingCanonical(w: string)
    requires w != [] && (w[0] != '0' || w == "0")
    ensures (if StripLeadingZeros(w) == [] then "0" else StripLeadingZeros(w)) == w
  {
    if w == "0" {
      assert StripLeadingZeros(w) == StripLeadingZeros([]);
    }
  }
}
