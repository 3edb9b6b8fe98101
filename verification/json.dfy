/** Values as the issue tracker's REST interface hands them to the application:
    JSON documents, read with JavaScript's property-access and stringification
    rules where the application depends on them. */
module Json {

  datatype Option<+T> = None | Some(value: T)

  /** A JSON value. Numbers are exact reals; `undefined` is never a value here,
      it is the absence of a key (JSON serialisation drops undefined-valued keys). */
  datatype Value =
    | Null
    | Bool(b: bool)
    | Num(n: real)
    | Str(s: string)
    | Arr(items: seq<Value>)
    | Obj(props: map<string, Value>)

  /** The `fields` object of an issue, or a field patch sent to the tracker. */
  type Fields = map<string, Value>

  /** `obj[name]`: the value under `name`, or undefined (None). */
  function Lookup(obj: Fields, name: string): (r: Option<Value>)
    ensures r.Some? <==> name in obj
    ensures r.Some? ==> r.value == obj[name]
  {
    if name in obj then Some(obj[name]) else None
  }

  /** `v.name` on a value that is neither null nor undefined: an object's own
      property; every other value has no such property (undefined). */
  function Prop(v: Value, name: string): (r: Option<Value>)
    ensures r.Some? <==> v.Obj? && name in v.props
    ensures r.Some? ==> r.value == v.props[name]
  {
    match v
    case Obj(props) => Lookup(props, name)
    case _ => None
  }

  /** `v?.[0]`: the first element of an array, the first character of a
      string, the property "0" of an object; undefined otherwise. */
  function OptFirst(v: Option<Value>): (r: Option<Value>)
    ensures v.Some? && v.value.Arr? && |v.value.items| > 0 ==> r == Some(v.value.items[0])
    ensures v.Some? && v.value.Arr? && |v.value.items| == 0 ==> r.None?
    ensures v.None? || v == Some(Null) ==> r.None?
  {
    match v
    case Some(Arr(items)) => if |items| > 0 then Some(items[0]) else None
    case Some(Str(s)) => if |s| > 0 then Some(Str([s[0]])) else None
    case Some(Obj(props)) => Lookup(props, "0")
    case _ => None
  }

  /** JavaScript truthiness of a defined value (NaN is not modelled). */
  predicate Truthy(v: Value) {
    match v
    case Null => false
    case Bool(b) => b
    case Num(n) => n != 0.0
    case Str(s) => s != ""
    case Arr(_) => true
    case Obj(_) => true
  }

  predicate IsDigit(c: char) {
    '0' <= c <= '9'
  }

  predicate AllDigits(s: string) {
    forall i :: 0 <= i < |s| ==> IsDigit(s[i])
  }

  function DigitChar(d: nat): (c: char)
    requires d < 10
    ensures IsDigit(c)
  {
    ('0' as int + d) as char
  }

  function DigitValue(c: char): (d: nat)
    requires IsDigit(c)
    ensures d < 10 && DigitChar(d) == c
  {
    c as int - '0' as int
  }

  /** The decimal numeral of `n`, without leading zeros. */
  function Decimal(n: nat): (s: string)
    ensures |s| > 0 && AllDigits(s)
    ensures |s| > 1 ==> s[0] != '0'
  {
    if n < 10 then [DigitChar(n)] else Decimal(n / 10) + [DigitChar(n % 10)]
  }

  /** The number a run of decimal digits denotes (JavaScript `Number` of a
      digit string: leading zeros do not matter). */
  function DigitsValue(ds: string): nat
    requires AllDigits(ds)
  {
    if ds == [] then 0 else DigitsValue(ds[..|ds| - 1]) * 10 + DigitValue(ds[|ds| - 1])
  }

  lemma {:induction false} DecimalRoundTrip(n: nat)
    ensures DigitsValue(Decimal(n)) == n
  {
    if n >= 10 {
      var s := Decimal(n);
      assert s[..|s| - 1] == Decimal(n / 10);
      DecimalRoundTrip(n / 10);
    }
  }

  lemma {:induction false} LeadingZeroIgnored(ds: string)
    requires AllDigits(ds)
    ensures DigitsValue("0" + ds) == DigitsValue(ds)
  {
    if ds != [] {
      assert ("0" + ds)[..|"0" + ds| - 1] == "0" + ds[..|ds| - 1];
      LeadingZeroIgnored(ds[..|ds| - 1]);
    }
  }

  /** The text a template literal `${v}` (or `'' + v`) produces, for the values
      this application interpolates; see README for the cases left out. */
  function TemplateText(v: Option<Value>): (s: string)
    ensures v.None? ==> s == "undefined"
    ensures v.Some? && v.value.Str? ==> s == v.value.s
  {
    match v
    case None => "undefined"
    case Some(Null) => "null"
    case Some(Bool(b)) => if b then "true" else "false"
    case Some(Str(s)) => s
    case Some(Obj(_)) => "[object Object]"
    case Some(Num(n)) =>
      if n == n.Floor as real then
        (if n < 0.0 then "-" + Decimal(-n.Floor) else Decimal(n.Floor))
      else ""
    case Some(Arr(_)) => ""
  }
}
