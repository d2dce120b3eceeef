/** String helpers standing in for the JavaScript string methods the source
    calls (`toLowerCase`, `toUpperCase`, `trim`, `includes`, `startsWith`,
    `replace(/\D/g, "")`, `split(".").pop()`, `padStart` and number
    formatting). Case mapping covers ASCII letters only. */
module Text {

  predicate IsUpperAscii(c: char) { 'A' <= c <= 'Z' }

  predicate IsLowerAscii(c: char) { 'a' <= c <= 'z' }

  predicate IsDigit(c: char) { '0' <= c <= '9' }

  function LowerChar(c: char): (r: char)
    ensures !IsUpperAscii(r)
    ensures !IsUpperAscii(c) ==> r == c
  {
    if IsUpperAscii(c) then (c as int + 32) as char else c
  }

  function UpperChar(c: char): (r: char)
    ensures !IsLowerAscii(r)
    ensures !IsLowerAscii(c) ==> r == c
  {
    if IsLowerAscii(c) then (c as int - 32) as char else c
  }

  /** `s.toLowerCase()` */
  function ToLower(s: string): (r: string)
    ensures |r| == |s|
    ensures forall i :: 0 <= i < |s| ==> r[i] == LowerChar(s[i])
  {
    if s == [] then [] else [LowerChar(s[0])] + ToLower(s[1..])
  }

  /** `s.toUpperCase()` */
  function ToUpper(s: string): (r: string)
    ensures |r| == |s|
    ensures forall i :: 0 <= i < |s| ==> r[i] == UpperChar(s[i])
  {
    if s == [] then [] else [UpperChar(s[0])] + ToUpper(s[1..])
  }

  lemma ToLowerIdempotent(s: string)
    ensures ToLower(ToLower(s)) == ToLower(s)
  {
  }

  /** The characters `String.prototype.trim` removes: white space and line
      terminators. */
  predicate IsSpace(c: char) {
    c == ' ' || c == '\t' || c == '\n' || c == '\r' || c == '\U{000B}' || c == '\U{000C}'
    || c == '\U{00A0}' || c == '\U{1680}' || ('\U{2000}' <= c <= '\U{200A}')
    || c == '\U{2028}' || c == '\U{2029}' || c == '\U{202F}' || c == '\U{205F}'
    || c == '\U{3000}' || c == '\U{FEFF}'
  }

  function TrimStart(s: string): (r: string)
    ensures |r| <= |s| && r == s[|s| - |r|..]
    ensures r != [] ==> !IsSpace(r[0])
    ensures forall i :: 0 <= i < |s| - |r| ==> IsSpace(s[i])
  {
    if s != [] && IsSpace(s[0]) then TrimStart(s[1..]) else s
  }

  function TrimEnd(s: string): (r: string)
    ensures |r| <= |s| && r == s[..|r|]
    ensures r != [] ==> !IsSpace(r[|r| - 1])
    ensures forall i :: |r| <= i < |s| ==> IsSpace(s[i])
  {
    if s != [] && IsSpace(s[|s| - 1]) then TrimEnd(s[..|s| - 1]) else s
  }

  /** `s.trim()`: the longest substring that neither starts nor ends with
      white space, obtained by removing only white space. */
  function Trim(s: string): (r: string)
    ensures r != [] ==> !IsSpace(r[0]) && !IsSpace(r[|r| - 1])
    ensures exists k {:trigger s[k..]} :: 0 <= k <= |s| - |r| && r == s[k..k + |r|]
    ensures (forall i :: 0 <= i < |s| ==> IsSpace(s[i])) <==> r == []
  {
    var t := TrimStart(s);
    var r := TrimEnd(t);
    var k := |s| - |t|;
    assert t == s[k..];
    assert r == t[..|r|];
    assert t[..|r|] == s[k..k + |r|];
    r
  }

  predicate StartsWith(s: string, prefix: string) {
    |prefix| <= |s| && s[..|prefix|] == prefix
  }

  /** `s.includes(t)` */
  predicate Contains(s: string, t: string)
    decreases |s|
  {
    StartsWith(s, t) || (s != [] && Contains(s[1..], t))
  }

  /** `t` occurs in `s` starting at index `i`. */
  predicate OccursAt(s: string, t: string, i: int) {
    0 <= i <= |s| - |t| && s[i..i + |t|] == t
  }

  lemma {:induction false} ContainsIffOccurs(s: string, t: string)
    ensures Contains(s, t) <==> exists i :: OccursAt(s, t, i)
    decreases |s|
  {
    if StartsWith(s, t) {
      assert OccursAt(s, t, 0);
    } else if s == [] {
    } else {
      ContainsIffOccurs(s[1..], t);
      forall i | 1 <= i <= |s| - |t|
        ensures OccursAt(s, t, i) <==> OccursAt(s[1..], t, i - 1)
      {
        assert s[1..][i - 1..i - 1 + |t|] == s[i..i + |t|];
      }
      assert !OccursAt(s, t, 0);
      if Contains(s[1..], t) {
        var i :| OccursAt(s[1..], t, i);
        assert OccursAt(s, t, i + 1);
      }
    }
  }

  /** Index of the first `c` in `s`, or `|s|`. */
  function FirstIndex(s: string, c: char): (i: nat)
    ensures i <= |s| && c !in s[..i]
    ensures i < |s| ==> s[i] == c
  {
    if s == [] then 0
    else if s[0] == c then 0
    else
      var j := FirstIndex(s[1..], c);
      assert s[..1 + j] == [s[0]] + s[1..][..j];
      1 + j
  }

  lemma FirstIndexAfter(value: string, tail: string, c: char)
    requires c !in value && tail != [] && tail[0] == c
    ensures FirstIndex(value + tail, c) == |value|
  {
    var s := value + tail;
    var i := FirstIndex(s, c);
    assert s[|value|] == c;
  }

  predicate AllDigits(s: string) { forall i :: 0 <= i < |s| ==> IsDigit(s[i]) }

  /** `s.replace(/\D/g, "")` */
  function DigitsOnly(s: string): (r: string)
    ensures forall i :: 0 <= i < |r| ==> IsDigit(r[i])
    ensures |r| <= |s|
    ensures (forall i :: 0 <= i < |s| ==> IsDigit(s[i])) ==> r == s
  {
    if s == [] then []
    else (if IsDigit(s[0]) then [s[0]] else []) + DigitsOnly(s[1..])
  }

  /** `s.split(sep).pop()`: the text after the last occurrence of `sep`,
      or all of `s` when `sep` does not occur. */
  function AfterLast(s: string, sep: char): (r: string)
    ensures |r| <= |s| && r == s[|s| - |r|..]
    ensures sep !in r
    ensures |r| < |s| ==> s[|s| - |r| - 1] == sep
    ensures sep !in s ==> r == s
    ensures sep in s ==> |r| < |s|
  {
    if s == [] then []
    else if s[|s| - 1] == sep then []
    else AfterLast(s[..|s| - 1], sep) + [s[|s| - 1]]
  }

  /** A separator anywhere in `s` leaves the text after the last one
      strictly shorter, just behind a separator. */
  lemma AfterLastAtSeparator(s: string, sep: char, k: nat)
    requires k < |s| && s[k] == sep
    ensures |AfterLast(s, sep)| < |s| && s[|s| - |AfterLast(s, sep)| - 1] == sep
  {
    assert sep in s;
  }

  function DigitChar(d: nat): (c: char)
    requires d < 10
    ensures IsDigit(c)
  {
    ('0' as int + d) as char
  }

  function DigitValue(c: char): (d: nat)
    requires IsDigit(c)
    ensures d < 10 && DigitChar(d) == c
  {
    c as int - '0' as int
  }

  /** The decimal text of a natural number, as `String(n)` writes it. */
  function NatText(n: nat): (r: string)
    ensures r != []
    ensures forall i :: 0 <= i < |r| ==> IsDigit(r[i])
    decreases n
  {
    if n < 10 then [DigitChar(n)] else NatText(n / 10) + [DigitChar(n % 10)]
  }

  /** Value of a string of decimal digits. */
  function DigitsValue(s: string): nat
    requires forall i :: 0 <= i < |s| ==> IsDigit(s[i])
  {
    if s == [] then 0 else DigitsValue(s[..|s| - 1]) * 10 + DigitValue(s[|s| - 1])
  }

  lemma {:induction false} NatTextRoundTrip(n: nat)
    ensures DigitsValue(NatText(n)) == n
    decreases n
  {
    if n >= 10 {
      NatTextRoundTrip(n / 10);
      var r := NatText(n);
      assert r[..|r| - 1] == NatText(n / 10);
    }
  }

  /** The decimal text of an integer, as `String(i)` writes it. */
  function IntText(i: int): (r: string)
    ensures r != []
  {
    if i < 0 then "-" + NatText(-i) else NatText(i)
  }

  /** `String(n).padStart(2, "0")`: below 100, exactly two digits whose
      value is `n`. */
  function PadTwo(n: nat): (r: string)
    ensures |r| >= 2
    ensures n < 100 ==> |r| == 2 && IsDigit(r[0]) && IsDigit(r[1])
                        && DigitValue(r[0]) * 10 + DigitValue(r[1]) == n
  {
    var t := NatText(n);
    assert 10 <= n < 100 ==> t == [DigitChar(n / 10), DigitChar(n % 10)] by {
      if 10 <= n < 100 {
        assert n / 10 < 10;
        assert NatText(n / 10) == [DigitChar(n / 10)];
      }
    }
    if |t| < 2 then "0" + t else t
  }
}
