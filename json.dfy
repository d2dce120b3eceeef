/** JSON values as the route handlers receive them after parsing, with the
    JavaScript coercions the handlers apply to them: property access,
    `??`, truthiness, `String(x)`, `Number(x)` and `typeof x === "string"`. */
module Json {
  import opened Common
  import opened Text

  datatype Json =
    | JNull
    | JBool(b: bool)
    | JNum(r: real)
    | JStr(s: string)
    | JArr(items: seq<Json>)
    | JObj(fields: map<string, Json>)

  /** `j.key`: `undefined` (None) unless `j` is an object holding `key`. */
  function Get(j: Json, key: string): (r: Option<Json>)
    ensures r.Some? <==> j.JObj? && key in j.fields
  {
    if j.JObj? && key in j.fields then Some(j.fields[key]) else None
  }

  /** `o?.key`, for a value that may itself be missing. */
  function GetOpt(o: Option<Json>, key: string): Option<Json> {
    if o.Some? then Get(o.value, key) else None
  }

  /** Neither `undefined` nor `null`: the values `??` keeps. */
  predicate Present(o: Option<Json>) { o.Some? && o.value != JNull }

  /** `o ?? d` */
  function OrElse(o: Option<Json>, d: Json): (r: Json)
    ensures Present(o) ==> r == o.value
    ensures !Present(o) ==> r == d
  {
    if Present(o) then o.value else d
  }

  /** JavaScript truthiness of a JSON value (parsed JSON holds no NaN). */
  predicate Truthy(j: Json) {
    match j
    case JNull => false
    case JBool(b) => b
    case JNum(r) => r != 0.0
    case JStr(s) => s != ""
    case JArr(_) => true
    case JObj(_) => true
  }

  /** Truthiness of a value that may be `undefined`. */
  predicate TruthyOpt(o: Option<Json>) { o.Some? && Truthy(o.value) }

  /** `typeof o === "string"`, giving the string. */
  function AsString(o: Option<Json>): (r: Option<string>)
    ensures r.Some? <==> o.Some? && o.value.JStr?
  {
    if o.Some? && o.value.JStr? then Some(o.value.s) else None
  }

  /** `String(n)` for a number. Integral values are written exactly;
      for other values only the integral part is kept. */
  function NumberText(r: real): (t: string)
    ensures r == r.Floor as real ==> t == IntText(r.Floor)
  {
    if r == r.Floor as real || r > 0.0 then IntText(r.Floor) else IntText(r.Floor + 1)
  }

  /** `String(j)` */
  function ToStr(j: Json): string
    decreases j, 1
  {
    match j
    case JNull => "null"
    case JBool(b) => if b then "true" else "false"
    case JNum(r) => NumberText(r)
    case JStr(s) => s
    case JArr(items) => JoinItems(j, items)
    case JObj(_) => "[object Object]"
  }

  /** `items.join(",")`, where `null` elements print as the empty string. */
  function JoinItems(ghost parent: Json, items: seq<Json>): string
    requires forall i :: 0 <= i < |items| ==> items[i] < parent
    decreases parent, 0, |items|
  {
    if items == [] then ""
    else
      var head := if items[0] == JNull then "" else ToStr(items[0]);
      if |items| == 1 then head else head + "," + JoinItems(parent, items[1..])
  }

  /** A number or NaN. */
  datatype Num = Finite(r: real) | NaN

  /** Value of the decimal literal `[+|-]digits[.digits]` (at least one
      digit); None for any other text. */
  function ParseDecimal(s: string): (r: Option<real>)
    ensures (s != [] && forall i :: 0 <= i < |s| ==> IsDigit(s[i])) ==> r == Some(DigitsValue(s) as real)
  {
    if s != [] && (s[0] == '-' || s[0] == '+') then
      var v := ParseUnsigned(s[1..]);
      if v.Some? && s[0] == '-' then Some(-v.value) else v
    else ParseUnsigned(s)
  }

  function ParseUnsigned(s: string): (r: Option<real>)
    ensures (s != [] && forall i :: 0 <= i < |s| ==> IsDigit(s[i])) ==> r == Some(DigitsValue(s) as real)
  {
    var intPart := LeadingDigits(s);
    var rest := s[|intPart|..];
    if rest == [] then
      if intPart == [] then None else Some(DigitsValue(intPart) as real)
    else if rest[0] == '.' then
      var frac := rest[1..];
      if (forall i :: 0 <= i < |frac| ==> IsDigit(frac[i])) && (intPart != [] || frac != []) then
        Some(DigitsValue(intPart) as real + DigitsValue(frac) as real / Pow10(|frac|) as real)
      else None
    else None
  }

  function Pow10(n: nat): (p: nat)
    ensures p >= 1
  {
    if n == 0 then 1 else 10 * Pow10(n - 1)
  }

  function LeadingDigits(s: string): (r: string)
    ensures |r| <= |s| && r == s[..|r|]
    ensures forall i :: 0 <= i < |r| ==> IsDigit(r[i])
    ensures |r| < |s| ==> !IsDigit(s[|r|])
    ensures (forall i :: 0 <= i < |s| ==> IsDigit(s[i])) ==> r == s
  {
    if s == [] || !IsDigit(s[0]) then [] else [s[0]] + LeadingDigits(s[1..])
  }

  /** `Number(s)` for a string: surrounding white space is ignored, the empty
      string is 0, a decimal literal is its value, anything else NaN. */
  function StringToNumber(s: string): Num {
    var t := Trim(s);
    if t == [] then Finite(0.0)
    else
      var v := ParseDecimal(t);
      if v.Some? then Finite(v.value) else NaN
  }

  /** `Number(j)` */
  function ToNumber(j: Json): Num {
    match j
    case JNull => Finite(0.0)
    case JBool(b) => Finite(if b then 1.0 else 0.0)
    case JNum(r) => Finite(r)
    case _ => StringToNumber(ToStr(j))
  }

  lemma NumberOfNatText(n: nat)
    ensures ToNumber(JStr(NatText(n))) == Finite(n as real)
  {
    var t := NatText(n);
    assert !IsSpace(t[0]) && !IsSpace(t[|t| - 1]);
    assert TrimStart(t) == t;
    assert TrimEnd(t) == t;
    NatTextRoundTrip(n);
  }
}
