/** Numbers as the JavaScript and Python code reads and prints them: `parseInt`,
    `parseFloat`, `Number(...)`, `int(...)`, and the de-DE amount rendering of answers.
    Values are exact (`real`); NaN is a value of its own. */
module Numbers {
  import opened Wrappers
  import opened Text

  /** A JavaScript number: an exact finite value or NaN (infinities are not modelled). */
  datatype JsNumber = Finite(value: real) | NaN

  /** `a + b`: NaN absorbs everything, finite values add exactly. */
  function Plus(a: JsNumber, b: JsNumber): (r: JsNumber)
    ensures r.NaN? <==> a.NaN? || b.NaN?
    ensures r.Finite? ==> r.value == a.value + b.value
  {
    if a.NaN? || b.NaN? then NaN else Finite(a.value + b.value)
  }

  /** `reduce((acc, x) => acc + x, 0)`, left to right. */
  function Sum(xs: seq<JsNumber>): JsNumber {
    if xs == [] then Finite(0.0) else Plus(Sum(xs[..|xs| - 1]), xs[|xs| - 1])
  }

  lemma SumAppend(xs: seq<JsNumber>, x: JsNumber)
    ensures Sum(xs + [x]) == Plus(Sum(xs), x)
  {
    assert (xs + [x])[..|xs|] == xs;
  }

  /** The sum is a number exactly when every term is: one NaN makes the total NaN. */
  lemma {:induction false} SumFinite(xs: seq<JsNumber>)
    ensures Sum(xs).Finite? <==> forall k :: 0 <= k < |xs| ==> xs[k].Finite?
  {
    if xs != [] {
      var p := xs[..|xs| - 1];
      SumFinite(p);
      assert forall k :: 0 <= k < |p| ==> p[k] == xs[k];
    }
  }

  /** `count > 0 ? total / count : 0`. */
  function Mean(total: real, count: nat): real {
    if count > 0 then total / count as real else 0.0
  }

  /** `avg` is the mean of `count` values adding up to `total`: times the count it gives the
      total. */
  predicate IsMeanOf(avg: real, count: nat, total: real) {
    avg * count as real == total
  }

  /** The mean times the count is the total; with no element the mean is 0. */
  lemma MeanTimesCount(total: real, count: nat)
    ensures count == 0 ==> Mean(total, count) == 0.0
    ensures count > 0 ==> IsMeanOf(Mean(total, count), count, total)
  {
  }

  function Pow10(n: nat): (p: nat)
    ensures p >= 1
  {
    if n == 0 then 1 else 10 * Pow10(n - 1)
  }

  /** The sign-and-digits body that follows an optional '+' or '-'. */
  function Unsigned(t: string): string {
    if t != "" && (t[0] == '-' || t[0] == '+') then t[1..] else t
  }

  predicate Negative(t: string) { t != "" && t[0] == '-' }

  /** `parseInt(s, 10)`: leading whitespace, an optional sign, then the longest run of digits;
      `None` stands for NaN (no digit where the number should start). */
  function ParseInt(s: string): (r: Option<int>)
    ensures r.None? <==> DigitPrefix(Unsigned(TrimStart(s, JsWhitespace))) == ""
    ensures r.Some? && !Negative(TrimStart(s, JsWhitespace)) ==> r.value >= 0
  {
    var t := TrimStart(s, JsWhitespace);
    var d := DigitPrefix(Unsigned(t));
    if d == "" then None
    else if Negative(t) then Some(-(DigitsValue(d) as int))
    else Some(DigitsValue(d))
  }

  /** `parseInt` reads back what a template string prints for a natural number. */
  lemma ParseIntOfNatToString(n: nat)
    ensures ParseInt(NatToString(n)) == Some(n)
  {
    var s := NatToString(n);
    assert s[0] !in JsWhitespace && s[0] != '-' && s[0] != '+';
    assert TrimStart(s, JsWhitespace) == s;
    assert Unsigned(s) == s;
    DigitPrefixOfDigits(s);
    DigitsValueOfNatToString(n);
  }

  /** `parseInt` of a run of digits is the value of the digits. */
  lemma ParseIntOfDigits(s: string)
    requires s != "" && AllDigits(s)
    ensures ParseInt(s) == Some(DigitsValue(s))
  {
    assert s[0] !in JsWhitespace && s[0] != '-' && s[0] != '+';
    assert TrimStart(s, JsWhitespace) == s;
    DigitPrefixOfDigits(s);
  }

  lemma {:induction false} DigitPrefixOfDigits(s: string)
    requires AllDigits(s)
    ensures DigitPrefix(s) == s
  {
    if s != "" {
      DigitPrefixOfDigits(s[1..]);
    }
  }

  /** The longest prefix of `t` that is a decimal literal (digits, an optional fraction, an
      optional exponent, at least one mantissa digit) with its value and length; `None` if
      `t` does not start with one. Signs are handled by the callers. */
  function ScanDecimal(t: string): (r: Option<(real, nat)>)
    ensures r.Some? ==> 0 < r.value.1 <= |t|
    ensures r.None? <==> ScanMantissa(t).None?
  {
    match ScanMantissa(t)
    case None => None
    case Some((mantissa, len)) =>
      match ScanExponent(t[len..])
      case None => Some((mantissa, len))
      case Some((e, elen)) =>
        Some((if e >= 0 then mantissa * Pow10(e) as real else mantissa / Pow10(-e) as real, len + elen))
  }

  /** Digits with an optional fraction (`12`, `12.`, `12.5`, `.5`): value and length. */
  function ScanMantissa(t: string): (r: Option<(real, nat)>)
    ensures r.Some? ==> 0 < r.value.1 <= |t|
    ensures r.None? <==> DigitPrefix(t) == "" && !(|t| >= 2 && t[0] == '.' && IsDigit(t[1]))
  {
    var whole := DigitPrefix(t);
    var afterWhole := t[|whole|..];
    var hasDot := afterWhole != "" && afterWhole[0] == '.';
    var frac := if hasDot then DigitPrefix(afterWhole[1..]) else "";
    if whole == "" && frac == "" then None
    else
      var len := |whole| + (if hasDot then 1 else 0) + |frac|;
      var value := if frac == "" then DigitsValue(whole) as real
                   else DigitsValue(whole) as real + DigitsValue(frac) as real / Pow10(|frac|) as real;
      Some((value, len))
  }

  /** An exponent part `e12`, `E-3`, `e+4`: its value and length. */
  function ScanExponent(t: string): (r: Option<(int, nat)>)
    ensures r.Some? ==> 0 < r.value.1 <= |t|
  {
    if t == "" || (t[0] != 'e' && t[0] != 'E') then None
    else
      var body := t[1..];
      var sign := if body != "" && (body[0] == '+' || body[0] == '-') then 1 else 0;
      var digits := DigitPrefix(body[sign..]);
      if digits == "" then None
      else Some((if sign == 1 && body[0] == '-' then -(DigitsValue(digits) as int) else DigitsValue(digits), 1 + sign + |digits|))
  }

  /** `parseFloat(s)`: the longest decimal prefix after leading whitespace and an optional sign. */
  function ParseFloat(s: string): (r: JsNumber)
    ensures r.NaN? <==> ScanDecimal(Unsigned(TrimStart(s, JsWhitespace))).None?
  {
    var t := TrimStart(s, JsWhitespace);
    match ScanDecimal(Unsigned(t))
    case None => NaN
    case Some((v, _)) => Finite(if Negative(t) then -v else v)
  }

  /** `parseFloat` reads back what a template string prints for a natural number. */
  lemma ParseFloatOfNatToString(n: nat)
    ensures ParseFloat(NatToString(n)) == Finite(n as real)
  {
    var s := NatToString(n);
    assert s[0] !in JsWhitespace && s[0] != '-' && s[0] != '+';
    assert TrimStart(s, JsWhitespace) == s;
    assert Unsigned(s) == s;
    ScanDecimalOfDigits(s);
    DigitsValueOfNatToString(n);
  }

  lemma ScanDecimalOfDigits(s: string)
    requires s != "" && AllDigits(s)
    ensures ScanDecimal(s) == Some((DigitsValue(s) as real, |s|))
  {
    DigitPrefixOfDigits(s);
    assert s[|s|..] == "";
    MantissaOfDigits(s);
    assert ScanExponent("") == None;
  }

  lemma MantissaOfDigits(s: string)
    requires s != "" && AllDigits(s) && DigitPrefix(s) == s
    ensures ScanMantissa(s) == Some((DigitsValue(s) as real, |s|))
  {
    assert s[|s|..] == "";
  }

  // ---- digits in other radixes ----

  /** The value of `c` as a digit of `radix` (letters in either case stand for 10 to 35),
      `None` when it is not one. */
  function RadixDigit(c: char, radix: nat): (d: Option<nat>)
    ensures d.Some? ==> d.value < radix
    ensures IsDigit(c) && 10 <= radix ==> d == Some(DigitValue(c))
  {
    var v := if IsDigit(c) then DigitValue(c)
             else if 'a' <= c <= 'z' then c as int - 'a' as int + 10
             else if 'A' <= c <= 'Z' then c as int - 'A' as int + 10
             else radix;
    if v < radix then Some(v) else None
  }

  predicate AllRadixDigits(s: string, radix: nat) {
    forall i :: 0 <= i < |s| ==> RadixDigit(s[i], radix).Some?
  }

  /** The value of a run of digits of `radix`, most significant first. */
  function RadixValue(s: string, radix: nat): nat
    requires AllRadixDigits(s, radix)
  {
    if s == "" then 0 else RadixValue(s[..|s| - 1], radix) * radix + RadixDigit(s[|s| - 1], radix).value
  }

  /** In radix 10 the value is the decimal value. */
  lemma {:induction false} RadixTenIsDecimal(s: string)
    requires AllDigits(s)
    ensures AllRadixDigits(s, 10) && RadixValue(s, 10) == DigitsValue(s)
  {
    if s != "" {
      RadixTenIsDecimal(s[..|s| - 1]);
    }
  }

  /** The longest prefix of `s` made of digits of `radix`. */
  function RadixPrefix(s: string, radix: nat): (r: string)
    ensures |r| <= |s| && r == s[..|r|] && AllRadixDigits(r, radix)
    ensures |r| == |s| || RadixDigit(s[|r|], radix).None?
  {
    if s != "" && RadixDigit(s[0], radix).Some? then [s[0]] + RadixPrefix(s[1..], radix) else ""
  }

  /** `0x`/`0X` opens a hexadecimal literal, `0o`/`0O` an octal and `0b`/`0B` a binary one;
      0 when `t` does not start with such a prefix. */
  function LiteralRadix(t: string): (radix: nat)
    ensures radix != 0 ==> |t| >= 2 && t[0] == '0'
  {
    if |t| < 2 || t[0] != '0' then 0
    else if t[1] == 'x' || t[1] == 'X' then 16
    else if t[1] == 'o' || t[1] == 'O' then 8
    else if t[1] == 'b' || t[1] == 'B' then 2
    else 0
  }

  /** `parseInt(s)` without a radix: as `ParseInt`, except that after the sign a `0x` or
      `0X` reads the longest run of hexadecimal digits that follows. */
  function ParseIntNoRadix(s: string): (r: Option<int>)
    ensures LiteralRadix(Unsigned(TrimStart(s, JsWhitespace))) != 16 ==> r == ParseInt(s)
    ensures LiteralRadix(Unsigned(TrimStart(s, JsWhitespace))) == 16 ==>
      var u := Unsigned(TrimStart(s, JsWhitespace));
      (r.None? <==> RadixPrefix(u[2..], 16) == "") &&
      (r.Some? && !Negative(TrimStart(s, JsWhitespace)) ==> r.value == RadixValue(RadixPrefix(u[2..], 16), 16))
  {
    var t := TrimStart(s, JsWhitespace);
    var u := Unsigned(t);
    if LiteralRadix(u) != 16 then ParseInt(s)
    else
      var d := RadixPrefix(u[2..], 16);
      if d == "" then None
      else if Negative(t) then Some(-(RadixValue(d, 16) as int))
      else Some(RadixValue(d, 16))
  }

  /** `parseInt("0x10")` is 16. */
  lemma ParseIntNoRadixHex()
    ensures ParseIntNoRadix("0x10") == Some(16)
  {
    var s := "0x10";
    HexTenParts();
    assert RadixPrefix(s[2..], 16) == "10";
  }

  lemma HexTenParts()
    ensures TrimStart("0x10", JsWhitespace) == "0x10" && Unsigned("0x10") == "0x10"
    ensures LiteralRadix("0x10") == 16 && "0x10"[2..] == "10"
    ensures RadixPrefix("10", 16) == "10" && RadixValue("10", 16) == 16
  {
    var s := "0x10";
    assert TrimStart(s, JsWhitespace) == s by { assert s[0] !in JsWhitespace; }
    HexTenPrefix();
    HexTenValue();
  }

  lemma HexTenPrefix()
    ensures RadixPrefix("10", 16) == "10"
  {
    assert RadixPrefix("0", 16) == "0" by { assert "0"[1..] == ""; }
    assert "10"[1..] == "0";
  }

  lemma HexTenValue()
    ensures AllRadixDigits("10", 16) && RadixValue("10", 16) == 16
  {
    assert "10"[..1] == "1" && "1"[..0] == "";
  }

  /** `Number(s)` for a string: surrounding whitespace is ignored, the empty string is 0, an
      unsigned `0x`, `0o` or `0b` literal is read in its radix, and anything else but one whole
      signed decimal literal is NaN. */
  function StringToNumber(s: string): (r: JsNumber)
    ensures Trim(s, JsWhitespace) == "" ==> r == Finite(0.0)
    ensures var t := Trim(s, JsWhitespace); LiteralRadix(t) != 0 ==>
      (r.Finite? <==> |t| > 2 && AllRadixDigits(t[2..], LiteralRadix(t))) &&
      (r.Finite? ==> r.value == RadixValue(t[2..], LiteralRadix(t)) as real)
  {
    var t := Trim(s, JsWhitespace);
    if t == "" then Finite(0.0)
    else if LiteralRadix(t) != 0 then
      var digits := t[2..];
      if digits != "" && AllRadixDigits(digits, LiteralRadix(t)) then Finite(RadixValue(digits, LiteralRadix(t)) as real)
      else NaN
    else
      var u := Unsigned(t);
      match ScanDecimal(u)
      case None => NaN
      case Some((v, len)) => if len == |u| then Finite(if Negative(t) then -v else v) else NaN
  }

  /** Python's digit run: ASCII digits, with single underscores allowed between two digits. */
  predicate PyDigits(u: string) {
    u != "" && IsDigit(u[0]) && IsDigit(u[|u| - 1]) &&
    (forall i :: 0 <= i < |u| ==> IsDigit(u[i]) || u[i] == '_') &&
    (forall i :: 0 <= i < |u| - 1 && u[i] == '_' ==> u[i + 1] != '_')
  }

  const DigitSet: set<char> := {'0', '1', '2', '3', '4', '5', '6', '7', '8', '9'}

  /** The digits of a Python digit run, its underscores dropped. */
  function PyDigitsOnly(u: string): (d: string)
    ensures AllDigits(d)
  {
    var d := KeepOnly(u, DigitSet);
    assert forall k :: 0 <= k < |d| ==> IsDigit(d[k]) by {
      forall k | 0 <= k < |d| ensures IsDigit(d[k]) { assert d[k] in DigitSet; }
    }
    d
  }

  /** Python's `int(text)`: optional surrounding whitespace and sign, then a digit run whose
      digits may be grouped by single underscores; `None` where `int` raises ValueError. */
  function PyIntOfString(s: string): (r: Option<int>)
    ensures r.Some? <==> PyDigits(Unsigned(Trim(s, PyWhitespace)))
    ensures r.Some? && !Negative(Trim(s, PyWhitespace)) ==>
      r.value == DigitsValue(PyDigitsOnly(Unsigned(Trim(s, PyWhitespace))))
  {
    var t := Trim(s, PyWhitespace);
    var u := Unsigned(t);
    if !PyDigits(u) then None
    else if Negative(t) then Some(-(DigitsValue(PyDigitsOnly(u)) as int)) else Some(DigitsValue(PyDigitsOnly(u)))
  }

  /** A plain run of digits is read as its decimal value, and `int("1_000")` is 1000. */
  lemma PyIntOfDigits(s: string)
    requires s != "" && AllDigits(s)
    ensures PyIntOfString(s) == Some(DigitsValue(s))
  {
    assert Trim(s, PyWhitespace) == s by {
      DigitIsNoSpace(s[0]);
      DigitIsNoSpace(s[|s| - 1]);
      TrimBare(s, PyWhitespace);
    }
    assert Unsigned(s) == s && !Negative(s);
    assert PyDigits(s);
    assert PyDigitsOnly(s) == s by {
      DigitsInSet(s);
      KeepOnlyAll(s, DigitSet);
    }
  }

  /** An underscore between two digit runs is ignored: `int("1_000") == int("1000")`. */
  lemma PyIntUnderscore(a: string, b: string)
    requires a != "" && b != "" && AllDigits(a) && AllDigits(b)
    ensures PyIntOfString(a + "_" + b) == PyIntOfString(a + b) == Some(DigitsValue(a + b))
  {
    UnderscoreBare(a, b);
    UnderscoreGroups(a, b);
    UnderscoreDropped(a, b);
    PyIntUnsigned(a + "_" + b);
    PyIntOfDigits(a + b);
  }

  lemma UnderscoreBare(a: string, b: string)
    requires a != "" && b != "" && AllDigits(a) && AllDigits(b)
    ensures var s := a + "_" + b; Trim(s, PyWhitespace) == s && Unsigned(s) == s && !Negative(s)
  {
    var s := a + "_" + b;
    assert s[0] == a[0] && s[|s| - 1] == b[|b| - 1];
    DigitIsNoSpace(a[0]);
    DigitIsNoSpace(b[|b| - 1]);
    TrimBare(s, PyWhitespace);
  }

  /** A bare unsigned digit run is read as the value of its digits. */
  lemma PyIntUnsigned(s: string)
    requires Trim(s, PyWhitespace) == s && Unsigned(s) == s && !Negative(s) && PyDigits(s)
    ensures PyIntOfString(s) == Some(DigitsValue(PyDigitsOnly(s)))
  {
  }

  lemma UnderscoreGroups(a: string, b: string)
    requires a != "" && b != "" && AllDigits(a) && AllDigits(b)
    ensures PyDigits(a + "_" + b)
  {
    var s := a + "_" + b;
    forall i | 0 <= i < |s| && i != |a| ensures IsDigit(s[i]) {
      if i < |a| { assert s[i] == a[i]; } else { assert s[i] == b[i - |a| - 1]; }
    }
    forall i | 0 <= i < |s| - 1 && s[i] == '_' ensures s[i + 1] != '_' {
      assert i == |a|;
      assert s[i + 1] == b[0];
    }
  }

  lemma UnderscoreDropped(a: string, b: string)
    requires AllDigits(a) && AllDigits(b)
    ensures PyDigitsOnly(a + "_" + b) == a + b
  {
    assert KeepOnly(a + "_", DigitSet) == a by {
      KeepOnlyAppend(a, "_", DigitSet);
      assert KeepOnly("_", DigitSet) == "" by { assert "_"[1..] == ""; }
      DigitsInSet(a);
      KeepOnlyAll(a, DigitSet);
    }
    assert KeepOnly(b, DigitSet) == b by {
      DigitsInSet(b);
      KeepOnlyAll(b, DigitSet);
    }
    KeepOnlyAppend(a + "_", b, DigitSet);
  }

  lemma DigitIsNoSpace(c: char)
    requires IsDigit(c)
    ensures c !in PyWhitespace
  {
  }

  lemma DigitsInSet(s: string)
    requires AllDigits(s)
    ensures forall k :: 0 <= k < |s| ==> s[k] in DigitSet
  {
    forall k | 0 <= k < |s| ensures s[k] in DigitSet {
      assert IsDigit(s[k]);
    }
  }




  /** Truncation toward zero, as `int(x)` does to a Python float. */
  function TruncReal(x: real): (n: int)
    ensures x >= 0.0 ==> n == x.Floor
    ensures x < 0.0 ==> n == -((-x).Floor)
  {
    if x >= 0.0 then x.Floor else -((-x).Floor)
  }

  predicate IsWhole(x: real) { x.Floor as real == x }

  /** `x * 10^k`. */
  function Shift(x: real, k: nat): real {
    x * Pow10(k) as real
  }

  /** The number of fraction digits that write `x` exactly, searched from `k` up to 20. */
  function FractionDigits(x: real, k: nat): (n: nat)
    requires k <= 20
    ensures k <= n <= 20
    ensures n < 20 ==> IsWhole(Shift(x, n))
    decreases 20 - k
  {
    if k == 20 || IsWhole(Shift(x, k)) then k else FractionDigits(x, k + 1)
  }

  /** `String(x)` for a number: an integer prints its digits, a fraction its exact decimal
      digits (at most 20; longer fractions are cut there). */
  function NumberText(x: real): (s: string)
    ensures s != ""
  {
    var k := FractionDigits(x, 0);
    if k == 0 then IntToString(x.Floor) else (if x < 0.0 then "-" else "") + Decimals(Shift(Abs(x), k).Floor, k)
  }

  /** The digits of `m / 10^k`, a point, and `k` fraction digits. */
  function Decimals(f: int, k: nat): string {
    var m: nat := if f < 0 then 0 else f;
    var (q, r) := DivMod(m, Pow10(k));
    NatToString(q) + "." + PadZero(NatToString(r), k)
  }

  /** Quotient and remainder of natural numbers. */
  function DivMod(m: nat, p: nat): (qr: (nat, nat))
    requires p >= 1
    ensures qr.0 * p + qr.1 == m && qr.1 < p
  {
    (m / p, m % p)
  }

  /** An integer prints as its digits. */
  lemma NumberTextOfInt(n: int)
    ensures NumberText(n as real) == IntToString(n)
  {
    assert Pow10(0) == 1;
    assert Shift(n as real, 0) == n as real;
    assert IsWhole(Shift(n as real, 0));
  }

  /** `parseInt` reads back a number printed between two texts. */
  lemma ReadBack(head: string, n: nat, tail: string)
    ensures var s := head + NatToString(n) + tail;
      |head| + |tail| <= |s| && ParseInt(s[|head|..|s| - |tail|]) == Some(n) && Contains(s, NatToString(n))
  {
    var d := NatToString(n);
    var s := head + d + tail;
    assert s[|head|..|s| - |tail|] == d;
    assert s[|head|..|head| + |d|] == d;
    ContainsAt(s, d, |head|);
    ParseIntOfNatToString(n);
  }

  /** `Math.abs`. */
  function Abs(x: real): (r: real)
    ensures r >= 0.0 && (r == x || r == -x)
  {
    if x < 0.0 then -x else x
  }

  /** `Math.ceil(a / b)` for integers with `b > 0`. */
  function CeilDiv(a: int, b: int): (q: int)
    requires b > 0
    ensures (q - 1) * b < a <= q * b
  {
    (a + b - 1) / b
  }

  // ---- de-DE rendering: `x.toLocaleString('de-DE', { minimumFractionDigits: 2 })` ----

  /** Rounds to three fraction digits, half away from zero, as `Intl.NumberFormat` does by default. */
  function Thousandths(x: real): int {
    if x >= 0.0 then (x * 1000.0 + 0.5).Floor else -((-x * 1000.0 + 0.5).Floor)
  }

  /** Digits of `n` with '.' between groups of three, counted from the right. */
  function GroupThousands(n: nat): string
    decreases n
  {
    if n < 1000 then NatToString(n) else GroupThousands(n / 1000) + "." + Pad3(n % 1000)
  }

  function Pad3(n: nat): (s: string)
    requires n < 1000
    ensures |s| == 3
  {
    [DigitChar(n / 100), DigitChar(n / 10 % 10), DigitChar(n % 10)]
  }

  /** German grouping ('.') and decimal comma, at least two and at most three fraction digits. */
  function DeAmount(x: real): (s: string)
    ensures s != ""
  {
    var t := Thousandths(x);
    var m: nat := if t < 0 then -t else t;
    var frac := Pad3(m % 1000);
    var fracText := if frac[2] == '0' then frac[..2] else frac;
    (if t < 0 then "-" else "") + GroupThousands(m / 1000) + "," + fracText
  }
}
