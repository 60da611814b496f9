/** String operations the services rely on: ASCII lower-casing, substring tests,
    splitting and joining on one character, trimming, decimal digits. */
module Text {
  import opened Wrappers

  predicate IsDigit(c: char) { '0' <= c <= '9' }

  predicate AllDigits(s: string) { forall i :: 0 <= i < |s| ==> IsDigit(s[i]) }

  function DigitValue(c: char): (d: nat)
    requires IsDigit(c)
    ensures d < 10
  {
    c as int - '0' as int
  }

  function DigitChar(d: nat): (c: char)
    requires d < 10
    ensures IsDigit(c) && DigitValue(c) == d
  {
    ('0' as int + d) as char
  }

  /** `String.prototype.toLowerCase` restricted to ASCII letters. */
  function LowerChar(c: char): char {
    if 'A' <= c <= 'Z' then (c as int + 32) as char else c
  }

  function Lower(s: string): (r: string)
    ensures |r| == |s|
    ensures forall i :: 0 <= i < |s| ==> r[i] == LowerChar(s[i])
  {
    if s == "" then "" else [LowerChar(s[0])] + Lower(s[1..])
  }

  /** `sub` occurs in `s` starting at index `i`. */
  predicate OccursAt(s: string, sub: string, i: int) {
    0 <= i && i + |sub| <= |s| && s[i..i + |sub|] == sub
  }

  /** `s.includes(sub)` in JavaScript, `sub in s` in Python. */
  predicate Contains(s: string, sub: string) {
    exists i | 0 <= i <= |s| - |sub| :: OccursAt(s, sub, i)
  }

  lemma ContainsAt(s: string, sub: string, i: int)
    requires OccursAt(s, sub, i)
    ensures Contains(s, sub)
  {
  }

  /** A string that contains `mid` contains everything `mid` contains. */
  lemma {:induction false} ContainsTransitive(s: string, mid: string, sub: string)
    requires Contains(s, mid) && Contains(mid, sub)
    ensures Contains(s, sub)
  {
    var i :| 0 <= i <= |s| - |mid| && OccursAt(s, mid, i);
    var j :| 0 <= j <= |mid| - |sub| && OccursAt(mid, sub, j);
    assert forall k :: 0 <= k < |sub| ==> sub[k] == mid[j + k] == s[i + j + k];
    assert s[i + j..i + j + |sub|] == sub;
    assert OccursAt(s, sub, i + j);
  }

  /** The longest prefix of `s` made of decimal digits. */
  function DigitPrefix(s: string): (r: string)
    ensures |r| <= |s| && r == s[..|r|] && AllDigits(r)
    ensures |r| == |s| || !IsDigit(s[|r|])
  {
    if |s| > 0 && IsDigit(s[0]) then [s[0]] + DigitPrefix(s[1..]) else ""
  }

  /** The index of the first decimal digit of `s`, if any. */
  function FirstDigitIndex(s: string): (r: Option<nat>)
    ensures r.None? <==> forall k :: 0 <= k < |s| ==> !IsDigit(s[k])
    ensures r.Some? ==> r.value < |s| && IsDigit(s[r.value]) &&
                        forall k :: 0 <= k < r.value ==> !IsDigit(s[k])
  {
    if s == "" then None
    else if IsDigit(s[0]) then Some(0)
    else
      var rest := FirstDigitIndex(s[1..]);
      if rest.Some? then Some(rest.value + 1) else None
  }

  /** The first maximal run of decimal digits, as JavaScript's `s.match(/\d+/)?.[0]` finds it. */
  function FirstDigitRun(s: string): (r: Option<string>)
    ensures r.None? <==> forall k :: 0 <= k < |s| ==> !IsDigit(s[k])
    ensures r.Some? ==>
      r.value != "" && AllDigits(r.value) && exists i :: DigitRunAt(s, r.value, i)
  {
    match FirstDigitIndex(s)
    case None => None
    case Some(i) =>
      var run := DigitPrefix(s[i..]);
      assert s[i..][..|run|] == s[i..i + |run|];
      assert DigitRunAt(s, run, i);
      Some(run)
  }

  /** `run` is the first digit run of `s` and starts at `i`: no digit before it, none right after. */
  ghost predicate DigitRunAt(s: string, run: string, i: int) {
    OccursAt(s, run, i) &&
    (forall k :: 0 <= k < i ==> !IsDigit(s[k])) &&
    (i + |run| == |s| || !IsDigit(s[i + |run|]))
  }

  /** The value of a string of decimal digits (leading zeros allowed). */
  function DigitsValue(s: string): nat
    requires AllDigits(s)
  {
    if s == "" then 0 else DigitsValue(s[..|s| - 1]) * 10 + DigitValue(s[|s| - 1])
  }

  /** Left-pads with '0' to `width` digits. */
  function PadZero(s: string, width: nat): (r: string)
    ensures |r| == if |s| < width then width else |s|
    ensures AllDigits(s) ==> AllDigits(r)
    decreases width - |s|
  {
    if |s| < width then PadZero("0" + s, width) else s
  }

  /** The decimal rendering of a natural number, as JavaScript's template strings print it. */
  function NatToString(n: nat): (s: string)
    ensures s != "" && AllDigits(s)
    ensures s[0] == '0' ==> n == 0
  {
    if n < 10 then [DigitChar(n)] else NatToString(n / 10) + [DigitChar(n % 10)]
  }

  function IntToString(n: int): (s: string)
    ensures s != ""
  {
    if n < 0 then "-" + NatToString(-n) else NatToString(n)
  }

  /** Reading back a rendered number gives the number. */
  lemma {:induction false} DigitsValueOfNatToString(n: nat)
    ensures DigitsValue(NatToString(n)) == n
  {
    var s := NatToString(n);
    if n >= 10 {
      DigitsValueOfNatToString(n / 10);
      assert s[..|s| - 1] == NatToString(n / 10);
    }
  }

  /** Rendering the value of a digit string without leading zeros gives the string back. */
  lemma {:induction false} NatToStringOfDigitsValue(s: string)
    requires s != "" && AllDigits(s) && (s[0] == '0' ==> |s| == 1)
    ensures NatToString(DigitsValue(s)) == s
  {
    var init := s[..|s| - 1];
    if |s| > 1 {
      assert init[0] == s[0];
      NatToStringOfDigitsValue(init);
      DigitsValueNonZeroLead(init);
      assert DigitsValue(s) / 10 == DigitsValue(init);
      assert DigitsValue(s) % 10 == DigitValue(s[|s| - 1]);
      assert s == init + [s[|s| - 1]];
    }
  }

  lemma {:induction false} DigitsValueNonZeroLead(s: string)
    requires s != "" && AllDigits(s) && s[0] != '0'
    ensures DigitsValue(s) > 0
  {
    if |s| > 1 {
      var init := s[..|s| - 1];
      assert init[0] == s[0];
      DigitsValueNonZeroLead(init);
    }
  }

  /** `s.split(c)` in JavaScript and `s.split(c)` in Python for a one-character separator. */
  function Split(s: string, c: char): (parts: seq<string>)
    ensures |parts| >= 1
    ensures forall k :: 0 <= k < |parts| ==> c !in parts[k]
  {
    if s == "" then [""]
    else
      var rest := Split(s[1..], c);
      if s[0] == c then [""] + rest else [[s[0]] + rest[0]] + rest[1..]
  }

  /** Appending the separator and a text without it adds that text as one more part. */
  lemma {:induction false} SplitAppend(s: string, c: char, t: string)
    requires c !in t
    ensures Split(s + [c] + t, c) == Split(s, c) + [t]
    decreases |s|
  {
    if s == "" {
      assert s + [c] + t == [c] + t;
      assert ([c] + t)[1..] == t;
      SplitNoSeparator(t, c);
    } else {
      assert (s + [c] + t)[1..] == s[1..] + [c] + t;
      SplitAppend(s[1..], c, t);
    }
  }

  /** `parts.join(c)`. */
  function Join(parts: seq<string>, c: char): string {
    if |parts| == 0 then ""
    else if |parts| == 1 then parts[0]
    else parts[0] + [c] + Join(parts[1..], c)
  }

  /** Splitting and joining again on the same separator gives the original string. */
  lemma {:induction false} JoinSplit(s: string, c: char)
    ensures Join(Split(s, c), c) == s
  {
    if s != "" {
      var rest := Split(s[1..], c);
      JoinSplit(s[1..], c);
      if s[0] == c {
        assert Split(s, c) == [""] + rest;
      } else {
        var parts := [[s[0]] + rest[0]] + rest[1..];
        assert Split(s, c) == parts;
        if |rest| > 1 {
          assert rest == [rest[0]] + rest[1..];
          assert Join(rest, c) == rest[0] + [c] + Join(rest[1..], c);
          assert parts[1..] == rest[1..];
        }
      }
    }
  }

  /** Joining parts that do not contain the separator and splitting again gives the parts back. */
  lemma {:induction false} SplitJoin(parts: seq<string>, c: char)
    requires |parts| >= 1
    requires forall k :: 0 <= k < |parts| ==> c !in parts[k]
    ensures Split(Join(parts, c), c) == parts
  {
    if |parts| == 1 {
      SplitNoSeparator(parts[0], c);
    } else {
      SplitJoin(parts[1..], c);
      SplitPrefix(parts[0], Join(parts[1..], c), c);
      assert parts == [parts[0]] + parts[1..];
    }
  }

  lemma {:induction false} SplitNoSeparator(s: string, c: char)
    requires c !in s
    ensures Split(s, c) == [s]
  {
    if s != "" {
      assert c !in s[1..] by { assert forall k :: 0 <= k < |s| - 1 ==> s[1..][k] == s[k + 1]; }
      SplitNoSeparator(s[1..], c);
      assert [s[0]] + s[1..] == s;
    }
  }

  lemma {:induction false} SplitPrefix(p: string, rest: string, c: char)
    requires c !in p
    ensures Split(p + [c] + rest, c) == [p] + Split(rest, c)
  {
    if p == "" {
      assert p + [c] + rest == [c] + rest;
      assert ([c] + rest)[1..] == rest;
    } else {
      var s := p + [c] + rest;
      assert s[1..] == p[1..] + [c] + rest;
      assert c !in p[1..] by { assert forall k :: 0 <= k < |p| - 1 ==> p[1..][k] == p[k + 1]; }
      SplitPrefix(p[1..], rest, c);
      assert [p[0]] + p[1..] == p;
    }
  }

  /** Drops every leading character that is in `ws`. */
  function TrimStart(s: string, ws: set<char>): (r: string)
    ensures |r| <= |s| && r == s[|s| - |r|..]
    ensures r == "" || r[0] !in ws
    ensures forall k :: 0 <= k < |s| - |r| ==> s[k] in ws
  {
    if s != "" && s[0] in ws then TrimStart(s[1..], ws) else s
  }

  /** Drops every trailing character that is in `ws`. */
  function TrimEnd(s: string, ws: set<char>): (r: string)
    ensures |r| <= |s| && r == s[..|r|]
    ensures r == "" || r[|r| - 1] !in ws
    ensures forall k :: |r| <= k < |s| ==> s[k] in ws
  {
    if s != "" && s[|s| - 1] in ws then TrimEnd(s[..|s| - 1], ws) else s
  }

  /** Drops the leading and the trailing characters that are in `ws`: what is left neither
      starts nor ends with one. */
  function Trim(s: string, ws: set<char>): (r: string)
    ensures |r| <= |s|
    ensures r == "" || (r[0] !in ws && r[|r| - 1] !in ws)
  {
    var t := TrimStart(s, ws);
    var r := TrimEnd(t, ws);
    assert r != "" ==> r[0] == t[0];
    r
  }

  /** What `Trim` removes is all `ws`: the result is a slice of the input with only `ws`
      around it. */
  lemma TrimIsPadded(s: string, ws: set<char>)
    ensures PaddedBy(s, Trim(s, ws), ws)
  {
    TrimPadded(s, TrimStart(s, ws), Trim(s, ws), ws);
  }

  lemma TrimPadded(s: string, t: string, r: string, ws: set<char>)
    requires |t| <= |s| && t == s[|s| - |t|..] && forall k :: 0 <= k < |s| - |t| ==> s[k] in ws
    requires |r| <= |t| && r == t[..|r|] && forall k :: |r| <= k < |t| ==> t[k] in ws
    ensures PaddedBy(s, r, ws)
  {
    var i := |s| - |t|;
    assert r == s[i..i + |r|];
    forall k | i + |r| <= k < |s| ensures s[k] in ws { assert s[k] == t[k - i]; }
    assert PaddedFrom(s, r, ws, i);
  }

  /** `r` is `s` less a run of characters of `pad` at its start and another at its end. */
  ghost predicate PaddedBy(s: string, r: string, pad: set<char>) {
    exists i :: PaddedFrom(s, r, pad, i)
  }

  /** `r` starts at `i` in `s`, and what is around it is all `pad`. */
  predicate PaddedFrom(s: string, r: string, pad: set<char>, i: int) {
    0 <= i <= |s| - |r| && r == s[i..i + |r|] &&
    (forall k :: 0 <= k < i ==> s[k] in pad) && (forall k :: i + |r| <= k < |s| ==> s[k] in pad)
  }

  /** Taking padding off twice takes off the padding of both kinds. */
  lemma PaddedTwice(a: string, b: string, c: string, p: set<char>, q: set<char>)
    requires PaddedBy(a, b, p) && PaddedBy(b, c, q)
    ensures PaddedBy(a, c, p + q)
  {
    var i :| PaddedFrom(a, b, p, i);
    var j :| PaddedFrom(b, c, q, j);
    assert c == a[i + j..i + j + |c|] by {
      forall k | 0 <= k < |c| ensures c[k] == a[i + j + k] { assert c[k] == b[j + k]; }
    }
    forall k | 0 <= k < i + j ensures a[k] in p + q {
      if k >= i { assert a[k] == b[k - i]; }
    }
    forall k | i + j + |c| <= k < |a| ensures a[k] in p + q {
      if k < i + |b| { assert a[k] == b[k - i]; }
    }
    assert PaddedFrom(a, c, p + q, i + j);
  }

  /** A string with nothing to trim at either end is left as it is. */
  lemma TrimBare(s: string, ws: set<char>)
    requires s == "" || (s[0] !in ws && s[|s| - 1] !in ws)
    ensures Trim(s, ws) == s
  {
  }

  /** Whitespace as JavaScript's `trim` and `parseInt`/`parseFloat` skip it (the ASCII and Latin-1 part). */
  const JsWhitespace: set<char> := {' ', '\t', '\n', '\r', '\U{B}', '\U{C}', '\U{A0}', '\U{FEFF}', '\U{2028}', '\U{2029}'}

  /** Whitespace as Python's `str.strip()` removes it (the ASCII and Latin-1 part). */
  const PyWhitespace: set<char> := {' ', '\t', '\n', '\r', '\U{B}', '\U{C}', '\U{1C}', '\U{1D}', '\U{1E}', '\U{1F}', '\U{85}', '\U{A0}'}

  /** Keeps the characters that are in `keep`, in order (`s.replace(/[^...]+/g, "")`). */
  function KeepOnly(s: string, keep: set<char>): (r: string)
    ensures |r| <= |s|
    ensures forall k :: 0 <= k < |r| ==> r[k] in keep
  {
    if s == "" then "" else (if s[0] in keep then [s[0]] else "") + KeepOnly(s[1..], keep)
  }

  lemma {:induction false} KeepOnlyAppend(s: string, t: string, keep: set<char>)
    ensures KeepOnly(s + t, keep) == KeepOnly(s, keep) + KeepOnly(t, keep)
  {
    if s == "" {
      assert s + t == t;
    } else {
      assert (s + t)[0] == s[0] && (s + t)[1..] == s[1..] + t;
      KeepOnlyAppend(s[1..], t, keep);
    }
  }

  /** Keeping every character of a string that has nothing else leaves it whole. */
  lemma {:induction false} KeepOnlyAll(s: string, keep: set<char>)
    requires forall k :: 0 <= k < |s| ==> s[k] in keep
    ensures KeepOnly(s, keep) == s
  {
    if s != "" {
      KeepOnlyAll(s[1..], keep);
    }
  }
}
