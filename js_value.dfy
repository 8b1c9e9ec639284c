/**
 * Dynamic JavaScript values as the React components hold them in their
 * form state: an object is a map from property name to value, `{...a, ...b}`
 * is map union (the right operand wins), and `x || d` picks `d` when `x` is
 * falsy. Numbers are `real`; the IEEE details are not modelled. String to
 * number conversion (`Number`, `parseFloat`) is modelled on decimal
 * literals `[+-]digits[.digits]` after ECMAScript whitespace trimming.
 */
module JsValue {
  import opened JsText

  datatype Value =
    | Undefined
    | Null
    | Bool(b: bool)
    | Num(x: real)
    | NaN
    | Str(s: string)
    | Strs(ss: seq<string>)
    | Nums(xs: seq<real>)
    | Objs(objs: seq<map<string, Value>>)

  datatype Option<T> = None | Some(value: T)

  /** A JavaScript object: property name to value. A missing key reads as undefined. */
  type Record = map<string, Value>

  /** `obj[key]` */
  function Get(m: Record, key: string): Value
  {
    if key in m then m[key] else Undefined
  }

  /** JavaScript truthiness: undefined, null, false, 0, NaN and '' are falsy;
      every array and object, even an empty one, is truthy. */
  predicate Truthy(v: Value)
  {
    match v
    case Undefined => false
    case Null => false
    case Bool(b) => b
    case Num(x) => x != 0.0
    case NaN => false
    case Str(s) => s != []
    case _ => true
  }

  /** `a || b` */
  function Or(a: Value, b: Value): (r: Value)
    ensures Truthy(a) ==> r == a
    ensures !Truthy(a) ==> r == b
  {
    if Truthy(a) then a else b
  }

  /** `obj?.[key] || d`: the property when the object exists and the
      property is truthy, else the default. */
  function FieldOr(obj: Option<Record>, key: string, d: Value): Value
  {
    Or(if obj.Some? then Get(obj.value, key) else Undefined, d)
  }

  /** The form input event the handlers receive: `e.target.name`,
      `e.target.value` and whether `e.target.type === 'number'`. */
  datatype InputEvent = InputEvent(name: string, value: string, isNumber: bool)

  predicate IsDigit(c: char)
  {
    '0' <= c <= '9'
  }

  predicate AllDigits(s: string)
  {
    forall i :: 0 <= i < |s| ==> IsDigit(s[i])
  }

  /** `digits` or `digits.digits`, each part non-empty. */
  predicate IsUnsignedDecimal(t: string)
  {
    var parts := SplitOn(t, '.');
    && |parts| <= 2
    && (forall i :: 0 <= i < |parts| ==> parts[i] != [] && AllDigits(parts[i]))
  }

  predicate HasSign(t: string)
  {
    t != [] && (t[0] == '+' || t[0] == '-')
  }

  /** A literal without its leading sign. */
  function Unsigned(t: string): (u: string)
    ensures |u| <= |t|
  {
    if HasSign(t) then t[1..] else t
  }

  /** The decimal literals the model's `Number` accepts. */
  predicate IsDecimalLiteral(t: string)
  {
    IsUnsignedDecimal(Unsigned(t))
  }

  function DigitsValue(s: string): (r: real)
    requires AllDigits(s)
    ensures r >= 0.0
  {
    if s == [] then 0.0
    else DigitsValue(s[..|s| - 1]) * 10.0 + ((s[|s| - 1] as int - '0' as int) as real)
  }

  function FractionValue(s: string): (r: real)
    requires AllDigits(s)
    ensures 0.0 <= r <= 1.0
  {
    if s == [] then 0.0
    else (((s[0] as int - '0' as int) as real) + FractionValue(s[1..])) / 10.0
  }

  function UnsignedValue(t: string): real
    requires IsUnsignedDecimal(t)
  {
    var parts := SplitOn(t, '.');
    DigitsValue(parts[0]) + (if |parts| == 2 then FractionValue(parts[1]) else 0.0)
  }

  function DecimalValue(t: string): real
    requires IsDecimalLiteral(t)
  {
    if HasSign(t) && t[0] == '-' then -UnsignedValue(Unsigned(t)) else UnsignedValue(Unsigned(t))
  }

  /** `Number(s)` on a string: blank is 0, a decimal literal its value, anything else NaN. */
  function NumberOf(s: string): (r: Value)
    ensures r.Num? || r.NaN?
    ensures IsBlank(s) ==> r == Num(0.0)
  {
    BlankIffTrimmedEmpty(s);
    var t := Trim(s);
    if t == [] then Num(0.0)
    else if IsDecimalLiteral(t) then Num(DecimalValue(t))
    else NaN
  }

  /** `Number(v)` on any value. */
  function NumberOfValue(v: Value): (r: Value)
    ensures r.Num? || r.NaN?
  {
    match v
    case Undefined => NaN
    case Null => Num(0.0)
    case Bool(b) => Num(if b then 1.0 else 0.0)
    case Num(x) => Num(x)
    case NaN => NaN
    case Str(s) => NumberOf(s)
    case Strs(ss) => if ss == [] then Num(0.0) else if |ss| == 1 then NumberOf(ss[0]) else NaN
    case Nums(xs) => if xs == [] then Num(0.0) else if |xs| == 1 then Num(xs[0]) else NaN
    case Objs(os) => if os == [] then Num(0.0) else NaN
  }

  /** `type === 'number' ? Number(value) : value`: what most forms store
      for an input event. An empty number input is 0. */
  function NumberOrText(e: InputEvent): (v: Value)
    ensures e.isNumber ==> (v.Num? || v.NaN?) && (e.value == [] ==> v == Num(0.0))
    ensures !e.isNumber ==> v == Str(e.value)
  {
    if e.isNumber then NumberOf(e.value) else Str(e.value)
  }

  function LeadingDigits(s: string): (n: nat)
    ensures n <= |s| && AllDigits(s[..n])
    ensures n < |s| ==> !IsDigit(s[n])
  {
    if s != [] && IsDigit(s[0]) then
      var n := LeadingDigits(s[1..]);
      assert s[..n + 1] == [s[0]] + s[1..][..n];
      n + 1
    else 0
  }

  /** Length of the longest decimal-literal prefix of `t`, 0 when there is none. */
  function DecimalPrefixLength(t: string): (n: nat)
    ensures n <= |t|
  {
    var sign := if HasSign(t) then 1 else 0;
    var whole := LeadingDigits(t[sign..]);
    if whole == 0 then 0
    else
      var afterWhole := sign + whole;
      if afterWhole < |t| && t[afterWhole] == '.' then
        var frac := LeadingDigits(t[afterWhole + 1..]);
        if frac == 0 then afterWhole else afterWhole + 1 + frac
      else afterWhole
  }

  /** `parseFloat(s)`: the value of the longest decimal prefix after leading
      whitespace, NaN when there is none (so '' and 'abc' give NaN). */
  function ParseFloat(s: string): (r: Value)
    ensures r.Num? || r.NaN?
    ensures s == [] ==> r == NaN
  {
    var t := TrimStart(s);
    var n := DecimalPrefixLength(t);
    if n == 0 then NaN
    else if IsDecimalLiteral(t[..n]) then Num(DecimalValue(t[..n]))
    else NaN
  }

  /** `x || 0` for a converted number: NaN and 0 both give 0. */
  function OrZero(v: Value): (r: Value)
    ensures r.Num? || !(v.Num? || v.NaN?)
    ensures v.NaN? ==> r == Num(0.0)
    ensures v.Num? ==> r == v
  {
    Or(v, Num(0.0))
  }

  /** `parseFloat(s) || 0`: never NaN; 0 for text `parseFloat` cannot read. */
  function ParseFloatOrZero(s: string): (r: Value)
    ensures r.Num?
    ensures ParseFloat(s).NaN? ==> r == Num(0.0)
    ensures ParseFloat(s).Num? ==> r == ParseFloat(s)
  {
    OrZero(ParseFloat(s))
  }

  /** `s ? parseFloat(s) : 0`: 0 for an empty input, otherwise whatever
      `parseFloat` reads, NaN included. */
  function ParseFloatUnlessEmpty(s: string): (r: Value)
    ensures r.Num? || r.NaN?
    ensures s == [] ==> r == Num(0.0)
  {
    if s == [] then Num(0.0) else ParseFloat(s)
  }

  /** A value with `key` set: `{ ...m, [key]: v }`. Every other property keeps its value. */
  function Set(m: Record, key: string, v: Value): (r: Record)
    ensures key in r && r[key] == v
    ensures r.Keys == m.Keys + {key}
    ensures forall k :: k != key ==> Get(r, k) == Get(m, k)
  {
    m[key := v]
  }

  /** `parseInt(s)`: the optionally signed run of digits after leading
      whitespace, NaN when there is none; anything after the digits is
      ignored, so the result is a whole number. */
  function ParseInt(s: string): (r: Value)
    ensures r.Num? || r.NaN?
    ensures s == [] ==> r == NaN
    ensures r.Num? ==> r.x == r.x.Floor as real
  {
    SignedDigits(TrimStart(s))
  }

  function SignedDigits(t: string): (r: Value)
    ensures r.Num? || r.NaN?
    ensures r.Num? ==> r.x == r.x.Floor as real
  {
    var sign := if HasSign(t) then 1 else 0;
    var n := LeadingDigits(t[sign..]);
    if n == 0 then NaN
    else
      var k: int := DigitsInt(t[sign..][..n]);
      Num((if sign == 1 && t[0] == '-' then -k else k) as real)
  }

  /** The whole number a run of digits spells. */
  function DigitsInt(s: string): nat
    requires AllDigits(s)
  {
    if s == [] then 0
    else DigitsInt(s[..|s| - 1]) * 10 + (s[|s| - 1] as int - '0' as int)
  }

  /** `parseInt` reads a run of digits as the same number `Number` does. */
  lemma {:induction false} DigitsAgree(s: string)
    requires AllDigits(s)
    ensures DigitsInt(s) as real == DigitsValue(s)
  {
    if s != [] {
      DigitsAgree(s[..|s| - 1]);
    }
  }

  /** The digit run of `ds + rest` is `ds` when `rest` starts with no digit. */
  lemma {:induction false} LeadingDigitsConcat(ds: string, rest: string)
    requires AllDigits(ds)
    requires rest == [] || !IsDigit(rest[0])
    ensures LeadingDigits(ds + rest) == |ds|
  {
    if ds == [] {
      assert ds + rest == rest;
    } else {
      assert (ds + rest)[1..] == ds[1..] + rest;
      LeadingDigitsConcat(ds[1..], rest);
    }
  }

  /** A plain run of digits parses to its value, and whatever follows the
      digits is ignored. */
  lemma ParseIntDigits(ds: string, rest: string)
    requires ds != [] && AllDigits(ds)
    requires rest == [] || !IsDigit(rest[0])
    ensures ParseInt(ds + rest) == Num(DigitsValue(ds))
  {
    var t := ds + rest;
    assert TrimStart(t) == t;
    assert !HasSign(t);
    assert t[0..] == t;
    LeadingDigitsConcat(ds, rest);
    assert t[..|ds|] == ds;
    DigitsAgree(ds);
  }
}
