/** The JS string and number built-ins the server relies on:
    `String.prototype.trim`, `parseFloat`, the `Number(...)` conversion that
    `*` applies, and multiplication by a positive constant. Numbers are exact
    reals read from the decimal grammar; IEEE-754 rounding is not modelled. */
module JsNumbers {
  import opened JsValues

  /** ECMAScript WhiteSpace and LineTerminator code points: what `trim`
      removes and what `parseFloat` skips. */
  predicate IsJsSpace(c: char) {
    if c <= ' ' then c == ' ' || ('\t' <= c <= '\r')
    else '\U{00A0}' <= c && IsWideSpace(c)
  }

  /** The white-space code points above U+00A0. */
  predicate IsWideSpace(c: char) {
    || c == '\U{00A0}' || c == '\U{1680}'
    || ('\U{2000}' <= c <= '\U{200A}')
    || c == '\U{2028}' || c == '\U{2029}' || c == '\U{202F}' || c == '\U{205F}'
    || c == '\U{3000}' || c == '\U{FEFF}'
  }

  predicate IsDigit(c: char) {
    '0' <= c <= '9'
  }

  /** Number of leading white-space characters of `s`. */
  function LeadingSpace(s: string): (k: nat)
    ensures k <= |s|
    ensures forall i :: 0 <= i < k ==> IsJsSpace(s[i])
    ensures k == |s| || !IsJsSpace(s[k])
  {
    if s != [] && IsJsSpace(s[0]) then 1 + LeadingSpace(s[1..]) else 0
  }

  /** Number of trailing white-space characters of `s`. */
  function TrailingSpace(s: string): (k: nat)
    ensures k <= |s|
    ensures forall i :: |s| - k <= i < |s| ==> IsJsSpace(s[i])
    ensures k == |s| || !IsJsSpace(s[|s| - 1 - k])
  {
    if s != [] && IsJsSpace(s[|s| - 1]) then 1 + TrailingSpace(s[..|s| - 1]) else 0
  }

  function TrimStart(s: string): string {
    s[LeadingSpace(s)..]
  }

  /** `s.trim()` */
  function Trim(s: string): (r: string)
    ensures r == "" || (!IsJsSpace(r[0]) && !IsJsSpace(r[|r| - 1]))
  {
    var t := TrimStart(s);
    t[..|t| - TrailingSpace(t)]
  }

  /** `trim` cuts a run of white space from each end and keeps the middle:
      `s` is the leading run, the result, then the trailing run. Together
      with the ensures of `Trim` (the result neither starts nor ends with
      white space) this determines the result. */
  lemma TrimRemovesSpace(s: string)
    ensures var l, r := LeadingSpace(s), Trim(s);
      && l + |r| <= |s|
      && s == s[..l] + r + s[l + |r|..]
      && (forall i :: 0 <= i < l ==> IsJsSpace(s[i]))
      && (forall i :: l + |r| <= i < |s| ==> IsJsSpace(s[i]))
  {
    var l := LeadingSpace(s);
    var k := TrailingSpace(s[l..]);
    assert Trim(s) == s[l..][..|s| - l - k];
    SplitThree(s, l, k);
    TrailingRunShift(s, l, k);
  }

  /** `s` is its first `l` characters, the middle, and its last `k`. */
  lemma SplitThree(s: string, l: nat, k: nat)
    requires l + k <= |s|
    ensures s == s[..l] + s[l..][..|s| - l - k] + s[l + (|s| - l - k)..]
  {
  }

  /** The trailing run of `s[l..]` is a run of white space at the end of `s`. */
  lemma TrailingRunShift(s: string, l: nat, k: nat)
    requires l <= |s| && k == TrailingSpace(s[l..])
    ensures forall i :: |s| - k <= i < |s| ==> IsJsSpace(s[i])
  {
    var t := s[l..];
    forall i | |s| - k <= i < |s|
      ensures IsJsSpace(s[i])
    {
      assert s[i] == t[i - l];
    }
  }

  /** A string trims to `""` exactly when every character is white space. */
  lemma {:induction false} TrimBlank(s: string)
    ensures Trim(s) == "" <==> forall i :: 0 <= i < |s| ==> IsJsSpace(s[i])
  {
    TrimRemovesSpace(s);
  }

  /** Length of the run of decimal digits at the start of `s`. */
  function DigitRun(s: string): (k: nat)
    ensures k <= |s|
    ensures forall i :: 0 <= i < k ==> IsDigit(s[i])
    ensures k == |s| || !IsDigit(s[k])
  {
    if s != [] && IsDigit(s[0]) then 1 + DigitRun(s[1..]) else 0
  }

  /** The number a string of decimal digits denotes, read left to right. */
  function DigitsValue(s: string): nat
    requires forall i :: 0 <= i < |s| ==> IsDigit(s[i])
  {
    if s == [] then 0
    else
      assert IsDigit(s[|s| - 1]);
      10 * DigitsValue(s[..|s| - 1]) + (s[|s| - 1] as int - '0' as int)
  }

  /** m · 10^e, exactly, one power of ten at a time. */
  function Scale(m: nat, e: int): real
    decreases if e < 0 then -e else e
  {
    if e == 0 then m as real
    else if e > 0 then 10.0 * Scale(m, e - 1)
    else Scale(m, e + 1) / 10.0
  }

  /** A recognised numeric prefix: its value and how many characters it spans. */
  datatype Scan = Scan(value: Value, length: nat)

  /** The optional ExponentPart `e[+|-]digits` at the start of `t`, as
      (exponent, characters used); an `e` not followed by digits is not part
      of the literal. */
  function ExponentPart(t: string): (r: (int, nat))
    ensures r.1 <= |t|
  {
    if |t| >= 1 && (t[0] == 'e' || t[0] == 'E') then
      var signed := |t| >= 2 && (t[1] == '+' || t[1] == '-');
      var start := if signed then 2 else 1;
      var d := DigitRun(t[start..]);
      if d == 0 then (0, 0)
      else
        var m: int := DigitsValue(t[start..start + d]);
        (if signed && t[1] == '-' then -m else m, start + d)
    else (0, 0)
  }

  /** The longest prefix of `u` that is a StrUnsignedDecimalLiteral
      (`Infinity`, `digits[.digits][exp]` or `.digits[exp]`), if any. */
  function ScanUnsigned(u: string): (r: Option<Scan>)
    ensures r.Some? ==> 0 < r.value.length <= |u|
    ensures r.Some? ==> r.value.value.Num? || r.value.value == Infinity(false)
  {
    if InfinityPrefix(u) then Some(Scan(Infinity(false), 8)) else ScanNumeral(u)
  }

  predicate InfinityPrefix(u: string) {
    |u| >= 8 && u[..8] == "Infinity"
  }

  /** The longest prefix `digits[.digits][exp]` or `.digits[exp]` of `u`. */
  function ScanNumeral(u: string): (r: Option<Scan>)
    ensures r.Some? ==> 0 < r.value.length <= |u| && r.value.value.Num?
  {
    var i := DigitRun(u);
    var dot := i < |u| && u[i] == '.';
    var f := if dot then DigitRun(u[i + 1..]) else 0;
    if i == 0 && f == 0 then None else Some(NumeralAt(u, i, dot, f))
  }

  /** The numeral of `u` made of `i` integer digits, a `.` when `dot`, `f`
      fraction digits and an optional exponent. */
  function NumeralAt(u: string, i: nat, dot: bool, f: nat): (s: Scan)
    requires (if dot then i + 1 + f else i) <= |u| && (dot || f == 0)
    requires forall j :: 0 <= j < i ==> IsDigit(u[j])
    requires dot ==> forall j :: i + 1 <= j < i + 1 + f ==> IsDigit(u[j])
    ensures (if dot then i + 1 + f else i) <= s.length <= |u| && s.value.Num?
  {
    var k := if dot then i + 1 + f else i;
    var digits := u[..i] + u[k - f..k];
    var exponent := ExponentPart(u[k..]);
    Scan(Num(Scale(DigitsValue(digits), exponent.0 - f)), k + exponent.1)
  }

  /** A literal starting with a digit or `.` is not `Infinity`. */
  lemma NumeralStart(u: string)
    requires u != [] && (IsDigit(u[0]) || u[0] == '.')
    ensures ScanUnsigned(u) == ScanNumeral(u)
  {
    if |u| >= 8 {
      assert u[..8][0] == u[0];
      assert "Infinity"[0] == 'I';
    }
  }

  function Negate(v: Value): Value {
    match v
    case Num(n) => Num(-n)
    case Infinity(neg) => Infinity(!neg)
    case _ => v
  }

  /** The longest prefix of `t` that is a StrDecimalLiteral (an optional sign
      before an unsigned literal), if any. */
  function ScanDecimal(t: string): (r: Option<Scan>)
    ensures r.Some? ==> 0 < r.value.length <= |t|
    ensures r.Some? ==> r.value.value.Num? || r.value.value.Infinity?
  {
    if |t| > 0 && (t[0] == '+' || t[0] == '-') then
      match ScanUnsigned(t[1..])
      case None => None
      case Some(sc) =>
        Some(Scan(if t[0] == '-' then Negate(sc.value) else sc.value, sc.length + 1))
    else ScanUnsigned(t)
  }

  /** `parseFloat(s)`: skip leading white space, then read the longest decimal
      prefix; `NaN` when there is none. */
  function ParseFloat(s: string): (r: Value)
    ensures r.Num? || r.NaN? || r.Infinity?
  {
    match ScanDecimal(TrimStart(s))
    case None => NaN
    case Some(sc) => sc.value
  }

  /** `!isNaN(x) && isFinite(x)` for `x = parseFloat(s)`. */
  predicate ParsesFinite(s: string) {
    ParseFloat(s).Num?
  }

  /** `Number(s)`: the whole trimmed string must be a decimal literal; the
      empty string is 0. Hexadecimal, octal and binary literals are not
      modelled (they read as `NaN` here). */
  function StringToNumber(s: string): (r: Value)
    ensures r.Num? || r.NaN? || r.Infinity?
  {
    var t := Trim(s);
    if t == "" then Num(0.0)
    else
      match ScanDecimal(t)
      case Some(sc) => if sc.length == |t| then sc.value else NaN
      case None => NaN
  }

  /** `ToNumber(v)`. Arrays and objects convert through their string form in
      JS; here they read as `NaN`. */
  function ToNumber(v: Value): (r: Value)
    ensures r.Num? || r.NaN? || r.Infinity?
    ensures v.Num? || v.NaN? || v.Infinity? ==> r == v
  {
    match v
    case Missing => NaN
    case Null => Num(0.0)
    case Bool(b) => Num(if b then 1.0 else 0.0)
    case Num(_) => v
    case NaN => NaN
    case Infinity(_) => v
    case Str(s) => StringToNumber(s)
    case Arr(_) => NaN
    case Obj(_) => NaN
  }

  /** `v * f` for a positive constant `f`. */
  function Times(v: Value, f: real): (r: Value)
    requires f > 0.0
    ensures r.Num? || r.NaN? || r.Infinity?
    ensures ToNumber(v).Num? ==> r == Num(ToNumber(v).n * f)
    ensures !ToNumber(v).Num? ==> r == ToNumber(v)
  {
    MultiplyNumber(ToNumber(v), f)
  }

  /** `x * f` once `x` is a number value: `NaN` and the infinities stay as
      they are, since `f` is positive. */
  function MultiplyNumber(x: Value, f: real): (r: Value)
    ensures x.Num? ==> r == Num(x.n * f)
    ensures !x.Num? ==> r == x
  {
    if x.Num? then Num(x.n * f) else x
  }

  /** Converting twice is converting once. */
  lemma ToNumberIdempotent(v: Value)
    ensures ToNumber(ToNumber(v)) == ToNumber(v)
  {
  }

  /** `null * f` is 0, `true * f` is `f`, and a numeric string is converted
      before it is multiplied. */
  lemma TimesExamples()
    ensures Times(Null, 0.94) == Num(0.0)
    ensures Times(Bool(true), 0.94) == Num(0.94)
    ensures Times(Str(" 100 "), 0.94) == Num(94.0)
    ensures Times(Str("12abc"), 0.94) == NaN
  {
    NumberOfPaddedHundred();
    TimesOfString(" 100 ");
    NumberOfTwelveText();
    TimesOfString("12abc");
  }

  /** A string operand is multiplied as the number `Number(s)` gives. */
  lemma TimesOfString(s: string)
    ensures Times(Str(s), 0.94) == MultiplyNumber(StringToNumber(s), 0.94)
  {
    assert ToNumber(Str(s)) == StringToNumber(s);
  }

  lemma NumberOfPaddedHundred()
    ensures StringToNumber(" 100 ") == Num(100.0)
  {
    assert " 100 " == " " + "100" + " ";
    assert "100"[..2] == "10" && "10"[..1] == "1" && "1"[..0] == "";
    assert DigitsValue("100") == 100;
    StringToNumberPadded(" ", "100", " ");
  }

  /** `trim` of a non-blank middle between two runs of white space is the
      middle. */
  lemma TrimOf(a: string, m: string, b: string)
    requires forall i :: 0 <= i < |a| ==> IsJsSpace(a[i])
    requires forall i :: 0 <= i < |b| ==> IsJsSpace(b[i])
    requires m != [] && !IsJsSpace(m[0]) && !IsJsSpace(m[|m| - 1])
    ensures Trim(a + m + b) == m
  {
    var s := a + m + b;
    TrimRemovesSpace(s);
    var l, r := LeadingSpace(s), Trim(s);
    assert forall i :: 0 <= i < |a| ==> s[i] == a[i];
    assert forall i :: |a| + |m| <= i < |s| ==> s[i] == b[i - |a| - |m|];
    assert s[|a|] == m[0] && s[|a| + |m| - 1] == m[|m| - 1];
    assert l == |a|;
    assert forall j :: 0 <= j < |r| ==> r[j] == s[l + j];
    assert |r| == |m|;
    assert r == s[|a|..|a| + |m|] == m;
  }

  /** `Number(s)` of a string of white space, the empty string included, is 0. */
  lemma StringToNumberBlank(s: string)
    requires forall i :: 0 <= i < |s| ==> IsJsSpace(s[i])
    ensures StringToNumber(s) == Num(0.0)
  {
    TrimBlank(s);
  }

  /** `Number(s)` ignores white space at both ends and reads a digit string
      as its integer value. */
  lemma StringToNumberPadded(a: string, d: string, b: string)
    requires forall i :: 0 <= i < |a| ==> IsJsSpace(a[i])
    requires forall i :: 0 <= i < |b| ==> IsJsSpace(b[i])
    requires |d| > 0 && forall i :: 0 <= i < |d| ==> IsDigit(d[i])
    ensures StringToNumber(a + d + b) == Num(DigitsValue(d) as real)
  {
    TrimOf(a, d, b);
    ScanDecimalDigits(d);
    StringToNumberScan(a + d + b);
  }

  /** `Number(s)` of a non-blank string is the literal its trimmed form
      starts with when that literal spans the whole trimmed form, and `NaN`
      otherwise. */
  lemma StringToNumberScan(s: string)
    requires Trim(s) != ""
    ensures var t := Trim(s); var sc := ScanDecimal(t);
      StringToNumber(s) == (if sc.Some? && sc.value.length == |t| then sc.value.value else NaN)
  {
  }

  /** A string of digits is one whole decimal literal. */
  lemma ScanDecimalDigits(d: string)
    requires |d| > 0 && forall i :: 0 <= i < |d| ==> IsDigit(d[i])
    ensures ScanDecimal(d) == Some(Scan(Num(DigitsValue(d) as real), |d|))
  {
    assert d + [] == d && d[..|d|] == d;
    DigitRunPrefix(d, []);
    ScanDigitsOnly(d, |d|);
    NumeralStart(d);
  }

  /** Unlike `parseFloat`, `Number` must read the whole trimmed string:
      `Number("12abc")` is `NaN` while `parseFloat("12abc")` is 12. */
  lemma NumberStopsAtText()
    ensures StringToNumber("12abc") == NaN
    ensures ParseFloat("12abc") == Num(12.0)
  {
    NumberOfTwelveText();
    ParseFloatTwelveText();
  }

  lemma NumberOfTwelveText()
    ensures StringToNumber("12abc") == NaN
  {
    var u := "12abc";
    TrimOf("", u, "");
    assert "" + u + "" == u;
    ScanTwelve();
    StringToNumberScan(u);
  }

  lemma ParseFloatTwelveText()
    ensures ParseFloat("12abc") == Num(12.0)
  {
    assert "12"[..1] == "1" && "1"[..0] == "";
    assert DigitsValue("12") == 12;
    assert "12" + "abc" == "12abc";
    ParseFloatDigitPrefix("12", "abc");
  }

  lemma ScanTwelve()
    ensures ScanDecimal("12abc") == Some(Scan(Num(DigitsValue("12") as real), 2))
  {
    var u := "12abc";
    assert u == "12" + "abc" && u[..2] == "12";
    DigitRunPrefix("12", "abc");
    ScanDigitsOnly(u, 2);
    NumeralStart(u);
  }

  /** Leading white space never changes what `parseFloat` reads. */
  lemma {:induction false} ParseFloatSkipsSpace(sp: string, s: string)
    requires forall i :: 0 <= i < |sp| ==> IsJsSpace(sp[i])
    ensures ParseFloat(sp + s) == ParseFloat(s)
  {
    if sp != [] {
      var x := sp + s;
      assert x[1..] == sp[1..] + s;
      assert IsJsSpace(x[0]);
      assert LeadingSpace(x) == 1 + LeadingSpace(x[1..]);
      assert TrimStart(x) == TrimStart(x[1..]);
      ParseFloatSkipsSpace(sp[1..], s);
    } else {
      assert sp + s == s;
    }
  }

  /** `parseFloat` reads a digit prefix and ignores what follows it when that
      cannot continue a literal: `parseFloat("12abc")` is 12. */
  lemma ParseFloatDigitPrefix(d: string, rest: string)
    requires |d| > 0 && forall i :: 0 <= i < |d| ==> IsDigit(d[i])
    requires rest == [] || (!IsDigit(rest[0]) && rest[0] != '.' && rest[0] != 'e' && rest[0] != 'E')
    ensures ParseFloat(d + rest) == Num(DigitsValue(d) as real)
  {
    var u := d + rest;
    assert IsDigit(u[0]);
    DigitRunPrefix(d, rest);
    ScanDigitsOnly(u, |d|);
    assert u[..|d|] == d;
    ParseFloatUnsigned(u);
  }

  /** A digit run not followed by `.` or an exponent is read as an integer. */
  lemma ScanDigitsOnly(u: string, i: nat)
    requires 0 < i <= |u| && DigitRun(u) == i
    requires i == |u| || (u[i] != '.' && u[i] != 'e' && u[i] != 'E')
    ensures ScanNumeral(u) == Some(Scan(Num(DigitsValue(u[..i]) as real), i))
  {
    assert ScanNumeral(u) == Some(NumeralAt(u, i, false, 0));
    assert u[..i] + u[i..i] == u[..i];
    assert u[i..] == [] || (u[i..][0] != 'e' && u[i..][0] != 'E');
    assert ExponentPart(u[i..]) == (0, 0);
    assert NumeralAt(u, i, false, 0) == Scan(Num(Scale(DigitsValue(u[..i]), 0)), i);
  }

  lemma {:induction false} DigitRunPrefix(d: string, rest: string)
    requires forall i :: 0 <= i < |d| ==> IsDigit(d[i])
    requires rest == [] || !IsDigit(rest[0])
    ensures DigitRun(d + rest) == |d|
  {
    if d != [] {
      assert (d + rest)[1..] == d[1..] + rest;
      DigitRunPrefix(d[1..], rest);
    } else {
      assert d + rest == rest;
    }
  }

  /** A literal `digits.digits` spanning the whole string. */
  lemma ScanFraction(u: string, i: nat, f: nat)
    requires i + 1 + f == |u| && 0 < f
    requires DigitRun(u) == i && u[i] == '.' && DigitRun(u[i + 1..]) == f
    ensures ScanNumeral(u) == Some(Scan(Num(Scale(DigitsValue(u[..i] + u[i + 1..]), -(f as int))), |u|))
  {
    assert ScanNumeral(u) == Some(NumeralAt(u, i, true, f));
    var k := i + 1 + f;
    assert u[k - f..k] == u[i + 1..];
    var digits := u[..i] + u[i + 1..];
    assert u[..i] + u[k - f..k] == digits;
    assert u[k..] == [];
    assert ExponentPart(u[k..]) == (0, 0);
    assert NumeralAt(u, i, true, f) == Scan(Num(Scale(DigitsValue(digits), 0 - f)), k + 0);
  }

  /** A string starting with a digit or `.` is read by `parseFloat` as a
      numeral. */
  lemma ParseFloatUnsigned(u: string)
    requires u != [] && (IsDigit(u[0]) || u[0] == '.')
    ensures ScanNumeral(u).Some? ==> ParseFloat(u) == ScanNumeral(u).value.value
  {
    assert LeadingSpace(u) == 0;
    assert TrimStart(u) == u;
    assert ScanDecimal(u) == ScanUnsigned(u);
    NumeralStart(u);
  }

  /** Where the parts of `d.g` sit, for digit strings `d` and `g`. */
  lemma FractionLayout(d: string, g: string)
    requires forall i :: 0 <= i < |d| ==> IsDigit(d[i])
    requires 0 < |g| && forall i :: 0 <= i < |g| ==> IsDigit(g[i])
    ensures var u := d + "." + g;
      DigitRun(u) == |d| && u[|d|] == '.' && DigitRun(u[|d| + 1..]) == |g|
      && u[..|d|] + u[|d| + 1..] == d + g
    ensures forall i :: 0 <= i < |d + g| ==> IsDigit((d + g)[i])
  {
    var u := d + "." + g;
    DigitRunPrefix(d, "." + g);
    assert u == d + ("." + g);
    assert u[|d| + 1..] == g + [];
    DigitRunPrefix(g, []);
    assert u[..|d|] == d;
  }

  /** `parseFloat("d.g")` is the digits of `d` and `g` scaled down by
      `10^|g|`: the fraction digits are read exactly. */
  lemma ParseFloatFraction(d: string, g: string)
    requires forall i :: 0 <= i < |d| ==> IsDigit(d[i])
    requires 0 < |g| && forall i :: 0 <= i < |g| ==> IsDigit(g[i])
    ensures ParseFloat(d + "." + g) == Num(Scale(DigitsValue(d + g), -|g|))
  {
    var u := d + "." + g;
    ScanFractionOf(d, g);
    assert u[0] == '.' || IsDigit(u[0]);
    ParseFloatUnsigned(u);
  }

  /** The numeral `d.g` spans the whole string and has the value of `dg`
      scaled down by `10^|g|`. */
  lemma ScanFractionOf(d: string, g: string)
    requires forall i :: 0 <= i < |d| ==> IsDigit(d[i])
    requires 0 < |g| && forall i :: 0 <= i < |g| ==> IsDigit(g[i])
    ensures ScanNumeral(d + "." + g) == Some(Scan(Num(Scale(DigitsValue(d + g), -|g|)), |d + "." + g|))
  {
    var u := d + "." + g;
    FractionLayout(d, g);
    ScanFraction(u, |d|, |g|);
  }

  lemma DigitsValueExample()
    ensures DigitsValue("123450") == 123450
  {
    assert "123450"[..5] == "12345";
    assert "12345"[..4] == "1234";
    assert "1234"[..3] == "123";
    assert "123"[..2] == "12";
    assert "12"[..1] == "1";
    assert "1"[..0] == "";
  }

  lemma ScaleExample()
    ensures Scale(123450, -2) == 1234.5
  {
  }

  /** `parseFloat` of the cleaned form of `"(1,234.50)"`. */
  lemma ParseFloatFractionExample()
    ensures ParseFloat("1234.50") == Num(1234.5)
  {
    var d, g := "1234", "50";
    assert d + "." + g == "1234.50";
    assert d + g == "123450";
    DigitsValueExample();
    ScaleExample();
    ParseFloatFraction(d, g);
  }

  /** `parseFloat` of the cleaned form of `"$5,000"`. */
  lemma ParseFloatIntegerExample()
    ensures ParseFloat("5000") == Num(5000.0)
  {
    assert "5000"[..3] == "500" && "500"[..2] == "50" && "50"[..1] == "5" && "5"[..0] == "";
    assert DigitsValue("5000") == 5000;
    assert "5000" + "" == "5000";
    ParseFloatDigitPrefix("5000", "");
  }

  /** Text has no numeric prefix; `"Infinity"` parses but is not finite. */
  lemma ParseFloatNonFiniteExamples()
    ensures ParseFloat("N/A") == NaN
    ensures ParseFloat("Infinity") == Infinity(false)
  {
    ParseFloatTextExample();
    ParseFloatInfinityExample();
  }

  lemma ParseFloatTextExample()
    ensures ParseFloat("N/A") == NaN
  {
    var u := "N/A";
    assert u[0] == 'N' && !IsJsSpace(u[0]) && !IsDigit(u[0]);
    assert LeadingSpace(u) == 0;
    assert TrimStart(u) == u;
    assert DigitRun(u) == 0;
    assert !InfinityPrefix(u);
    assert ScanNumeral(u) == None;
    assert ScanDecimal(u) == ScanUnsigned(u);
  }

  lemma ParseFloatInfinityExample()
    ensures ParseFloat("Infinity") == Infinity(false)
  {
    var u := "Infinity";
    assert u[0] == 'I' && !IsJsSpace(u[0]);
    assert LeadingSpace(u) == 0;
    assert TrimStart(u) == u;
    assert u[..8] == u;
    assert InfinityPrefix(u);
    assert ScanDecimal(u) == ScanUnsigned(u);
  }
}
