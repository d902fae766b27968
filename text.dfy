/** The Python `str` operations the modelled code uses, over ASCII text. */
module Text {
  import opened Wrappers
  import Sorting

  /** `str.isspace` for ASCII: tab, line feed, vertical tab, form feed, carriage
      return, the four separator controls and the space. */
  predicate IsSpace(c: char)
  {
    (9 <= c as int <= 13) || (28 <= c as int <= 32)
  }

  /** A string that `strip()` reduces to the empty string (Python's falsy `s.strip()`). */
  predicate IsBlank(s: string)
  {
    forall i :: 0 <= i < |s| ==> IsSpace(s[i])
  }

  function LStrip(s: string): (r: string)
    ensures |r| <= |s| && r == s[|s| - |r|..]
    ensures r == [] || !IsSpace(r[0])
    ensures IsBlank(s[..|s| - |r|])
  {
    if s != [] && IsSpace(s[0]) then
      var r := LStrip(s[1..]);
      assert s[..|s| - |r|] == [s[0]] + s[1..][..|s[1..]| - |r|];
      r
    else s
  }

  function RStrip(s: string): (r: string)
    ensures |r| <= |s| && r == s[..|r|]
    ensures r == [] || !IsSpace(r[|r| - 1])
    ensures IsBlank(s[|r|..])
  {
    if s != [] && IsSpace(s[|s| - 1]) then
      var r := RStrip(s[..|s| - 1]);
      assert s[|r|..] == s[..|s| - 1][|r|..] + [s[|s| - 1]];
      r
    else s
  }

  lemma {:induction false} LStripBlank(s: string)
    ensures LStrip(s) == [] <==> IsBlank(s)
  {
    if s != [] && IsSpace(s[0]) {
      LStripBlank(s[1..]);
      assert IsBlank(s) <==> IsBlank(s[1..]) by {
        assert forall k :: 1 <= k < |s| ==> s[k] == s[1..][k - 1];
      }
    }
  }

  /** `str.strip()`: whitespace removed from both ends. */
  function Strip(s: string): (r: string)
    ensures |r| <= |s|
    ensures r == [] || (!IsSpace(r[0]) && !IsSpace(r[|r| - 1]))
    ensures r == [] <==> IsBlank(s)
  {
    var l := LStrip(s);
    var r := RStrip(l);
    LStripBlank(s);
    assert r == [] ==> l[|r|..] == l;
    r
  }

  /** A string with no whitespace at either end is its own `strip()`. */
  lemma StripUnchanged(s: string)
    requires s != [] && !IsSpace(s[0]) && !IsSpace(s[|s| - 1])
    ensures Strip(s) == s
  {
    assert LStrip(s) == s;
    assert RStrip(s) == s;
  }

  function LowerChar(c: char): char
  {
    if 'A' <= c <= 'Z' then (c as int + 32) as char else c
  }

  function UpperChar(c: char): char
  {
    if 'a' <= c <= 'z' then (c as int - 32) as char else c
  }

  /** `str.lower()`, ASCII letters only. */
  function Lower(s: string): (r: string)
    ensures |r| == |s|
    ensures forall i :: 0 <= i < |s| ==> r[i] == LowerChar(s[i])
  {
    seq(|s|, i requires 0 <= i < |s| => LowerChar(s[i]))
  }

  /** `str.capitalize()`: the first character upper-cased and the rest lower-cased. */
  function Capitalize(s: string): (r: string)
    ensures |r| == |s|
    ensures s != [] ==> r[0] == UpperChar(s[0]) && r[1..] == Lower(s[1..])
  {
    if s == [] then [] else [UpperChar(s[0])] + Lower(s[1..])
  }

  predicate StartsWith(s: string, prefix: string)
  {
    |prefix| <= |s| && s[..|prefix|] == prefix
  }

  /** Python's `sub in s` for strings. */
  predicate Contains(s: string, sub: string)
  {
    exists i :: 0 <= i <= |s| && StartsWith(s[i..], sub)
  }

  /** Every string contains itself. */
  lemma ContainsSelf(s: string)
    ensures Contains(s, s)
  {
    assert StartsWith(s[0..], s);
  }

  /** `str.replace(a, b)` for single characters. */
  function ReplaceChar(s: string, a: char, b: char): (r: string)
    ensures |r| == |s|
    ensures forall i :: 0 <= i < |s| ==> r[i] == (if s[i] == a then b else s[i])
  {
    seq(|s|, i requires 0 <= i < |s| => if s[i] == a then b else s[i])
  }

  /** Python's `s * n`: `n` copies of `s`, and the empty string for `n <= 0`. */
  function Repeat(s: string, n: int): (r: string)
    ensures n <= 0 ==> r == []
    ensures n > 0 ==> |r| == |s| * n
    decreases n
  {
    if n <= 0 then [] else s + Repeat(s, n - 1)
  }

  function FirstIndex(s: string, c: char): (i: nat)
    requires c in s
    ensures i < |s| && s[i] == c
    ensures forall k :: 0 <= k < i ==> s[k] != c
  {
    if s[0] == c then 0 else
      assert c in s[1..];
      FirstIndex(s[1..], c) + 1
  }

  /** `s.split(sep)` for a one-character separator. */
  function Split(s: string, sep: char): (r: seq<string>)
    ensures |r| >= 1
    decreases |s|
  {
    if sep in s then
      var i := FirstIndex(s, sep);
      [s[..i]] + Split(s[i + 1..], sep)
    else [s]
  }

  /** `sep.join(xs)`. */
  function Join(xs: seq<string>, sep: string): string
  {
    if xs == [] then []
    else if |xs| == 1 then xs[0]
    else xs[0] + sep + Join(xs[1..], sep)
  }

  /** Splitting a joined list gives it back when no item holds the separator. */
  lemma {:induction false} SplitJoin(xs: seq<string>, sep: char)
    requires |xs| >= 1
    requires forall k :: 0 <= k < |xs| ==> sep !in xs[k]
    ensures Split(Join(xs, [sep]), sep) == xs
  {
    if |xs| == 1 {
    } else {
      var s := Join(xs, [sep]);
      assert s == xs[0] + [sep] + Join(xs[1..], [sep]);
      assert s[|xs[0]|] == sep;
      assert s[..|xs[0]|] == xs[0];
      assert sep in s;
      assert forall k :: 0 <= k < |xs[0]| ==> s[k] == xs[0][k];
      var i := FirstIndex(s, sep);
      assert i == |xs[0]|;
      assert s[i + 1..] == Join(xs[1..], [sep]);
      SplitJoin(xs[1..], sep);
      assert xs == [xs[0]] + xs[1..];
    }
  }

  /** The parts of a split never contain the separator. */
  lemma {:induction false} SplitPartsFree(s: string, sep: char)
    ensures forall k :: 0 <= k < |Split(s, sep)| ==> sep !in Split(s, sep)[k]
    decreases |s|
  {
    if sep in s {
      var i := FirstIndex(s, sep);
      SplitPartsFree(s[i + 1..], sep);
    }
  }

  /** `a, b = s.split(sep)`: the two parts when `s` holds exactly one `sep`,
      and None where Python's unpacking raises ValueError. */
  function SplitPair(s: string, sep: char): (r: Option<(string, string)>)
    ensures r.Some? ==> sep !in r.value.0 && sep !in r.value.1 && s == r.value.0 + [sep] + r.value.1
  {
    var parts := Split(s, sep);
    SplitPartsFree(s, sep);
    if |parts| == 2 then
      var i := FirstIndex(s, sep);
      assert Split(s[i + 1..], sep) == [parts[1]];
      assert s == s[..i] + [s[i]] + s[i + 1..];
      Some((parts[0], parts[1]))
    else None
  }

  /** Two parts joined by the separator are split back into themselves. */
  lemma SplitPairOfJoined(a: string, b: string, sep: char)
    requires sep !in a && sep !in b
    ensures SplitPair(a + [sep] + b, sep) == Some((a, b))
  {
    SplitJoin([a, b], sep);
    assert Join([a, b], [sep]) == a + [sep] + b;
  }

  /** A prefix free of the separator survives cutting the string at it. */
  lemma StartsWithBeforeSep(s: string, p: string, a: string, b: string, sep: char)
    requires StartsWith(s, p) && s == a + [sep] + b && sep !in p
    ensures StartsWith(a, p)
  {
    assert s[|a|] == sep;
    if p != [] {
      var m := if |a| < |p| then |a| else 0;
      assert p[m] == s[m];
    }
    assert a[..|p|] == s[..|p|];
  }

  /** A part of a string holds no character the string does not. */
  lemma PrefixKeepsOut(s: string, a: string, b: string, c: char)
    requires s == a + b && c !in s
    ensures c !in a
  {
    assert forall k :: 0 <= k < |a| ==> a[k] == s[k];
  }

  /** Neither part of a string cut at its one separator holds a character
      the string does not. */
  lemma SplitPairKeepsOut(s: string, sep: char, c: char)
    requires c !in s && SplitPair(s, sep).Some?
    ensures c !in SplitPair(s, sep).value.0 && c !in SplitPair(s, sep).value.1
  {
    var a := SplitPair(s, sep).value.0;
    var b := SplitPair(s, sep).value.1;
    assert s == a + ([sep] + b);
    PrefixKeepsOut(s, a, [sep] + b, c);
    assert forall k :: 0 <= k < |b| ==> b[k] == s[|a| + 1 + k];
  }

  /** Stripping a string adds no character to it. */
  lemma StripKeepsOut(s: string, c: char)
    requires c !in s
    ensures c !in Strip(s)
  {
    var l := LStrip(s);
    forall k | 0 <= k < |l|
      ensures l[k] != c
    {
      assert l[k] == s[|s| - |l| + k];
    }
    RStripKeepsOut(l, c);
    assert Strip(s) == RStrip(l);
  }

  /** Stripping the right end of a string adds no character to it. */
  lemma RStripKeepsOut(s: string, c: char)
    requires c !in s
    ensures c !in RStrip(s)
  {
    var r := RStrip(s);
    forall k | 0 <= k < |r|
      ensures r[k] != c
    {
      assert r[k] == s[k];
    }
  }

  // ---------------------------------------------------------------- numbers

  predicate IsDigit(c: char)
  {
    '0' <= c <= '9'
  }

  function DigitChar(d: nat): char
    requires d < 10
  {
    ('0' as int + d) as char
  }

  /** `str(n)` for a natural number. */
  function NatToString(n: nat): (r: string)
    ensures |r| >= 1
    ensures forall i :: 0 <= i < |r| ==> IsDigit(r[i])
  {
    if n < 10 then [DigitChar(n)] else NatToString(n / 10) + [DigitChar(n % 10)]
  }

  /** `str(i)` for an integer. */
  function IntToString(i: int): (r: string)
    ensures |r| >= 1
  {
    if i < 0 then "-" + NatToString(-i) else NatToString(i)
  }

  function DigitsValue(s: string): nat
    requires forall i :: 0 <= i < |s| ==> IsDigit(s[i])
  {
    if s == [] then 0
    else
      assert IsDigit(s[|s| - 1]);
      DigitsValue(s[..|s| - 1]) * 10 + (s[|s| - 1] as int - '0' as int)
  }

  lemma {:induction false} DigitsValueOfNat(n: nat)
    ensures DigitsValue(NatToString(n)) == n
  {
    if n >= 10 {
      var s := NatToString(n);
      assert s[..|s| - 1] == NatToString(n / 10);
      DigitsValueOfNat(n / 10);
    }
  }

  /** `int(s)`: optional surrounding whitespace, an optional sign and at least one
      digit; anything else is Python's ValueError. */
  function ParseInt(s: string): (r: Result<int>)
    ensures r.Ok? ==> |Strip(s)| >= 1
  {
    ParseSigned(Strip(s))
  }

  /** The stripped text of `int(s)`: an optional sign, then digits only. */
  function ParseSigned(t: string): (r: Result<int>)
    ensures r.Ok? ==> |t| >= 1
  {
    if t == [] then Err(ValueError)
    else
      var neg := t[0] == '-';
      var body := if t[0] == '-' || t[0] == '+' then t[1..] else t;
      if body == [] || !(forall i :: 0 <= i < |body| ==> IsDigit(body[i])) then Err(ValueError)
      else if neg then Ok(-(DigitsValue(body) as int)) else Ok(DigitsValue(body))
  }

  /** `int(str(n))` gives `n` back. */
  lemma ParseIntOfString(n: int)
    ensures ParseInt(IntToString(n)) == Ok(n)
  {
    ParseIntOfStringValue(n);
  }

  lemma ParseIntOfStringValue(n: int)
    ensures ParseInt(IntToString(n)).Ok? && ParseInt(IntToString(n)).value == n
  {
    if n < 0 {
      var m: nat := -n;
      assert IntToString(n) == "-" + NatToString(m);
      ParseNegativeNat(m);
    } else {
      assert IntToString(n) == NatToString(n);
      ParseNat(n);
    }
  }

  // The steps below state parse results as `.Ok? && .value == v` rather than
  // `== Ok(v)`: the solver then meets the arithmetic at the top level.

  /** `int(str(m))` is `m`. */
  lemma ParseNat(m: nat)
    ensures ParseInt(NatToString(m)).Ok? && ParseInt(NatToString(m)).value == m
  {
    DigitsValueOfNat(m);
    DigitsParse(NatToString(m), m);
  }

  /** `int("-" + str(m))` is `-m`. */
  lemma ParseNegativeNat(m: nat)
    ensures ParseInt("-" + NatToString(m)).Ok? && ParseInt("-" + NatToString(m)).value == -(m as int)
  {
    DigitsValueOfNat(m);
    NegativeDigitsParse(NatToString(m), m);
  }

  lemma DigitsParse(d: string, m: nat)
    requires |d| >= 1 && forall i :: 0 <= i < |d| ==> IsDigit(d[i])
    requires DigitsValue(d) == m
    ensures ParseInt(d).Ok? && ParseInt(d).value == m
  {
    ParseDigits(d);
  }

  lemma NegativeDigitsParse(d: string, m: nat)
    requires |d| >= 1 && forall i :: 0 <= i < |d| ==> IsDigit(d[i])
    requires DigitsValue(d) == m
    ensures ParseInt("-" + d).Ok? && ParseInt("-" + d).value == -(m as int)
  {
    ParseNegativeDigits(d);
  }

  /** Digits parse as their value. */
  lemma ParseDigits(d: string)
    requires |d| >= 1 && forall i :: 0 <= i < |d| ==> IsDigit(d[i])
    ensures ParseInt(d) == Ok(DigitsValue(d))
  {
    StripUnchanged(d);
    assert ParseInt(d) == ParseSigned(d);
    assert d[0] != '-' && d[0] != '+';
  }

  /** A minus sign followed by digits parses as their value negated. */
  lemma ParseNegativeDigits(d: string)
    requires |d| >= 1 && forall i :: 0 <= i < |d| ==> IsDigit(d[i])
    ensures ParseInt("-" + d) == Ok(-(DigitsValue(d) as int))
  {
    NegativeDigitsStripped(d);
    SignedNegativeDigits(d);
  }

  lemma NegativeDigitsStripped(d: string)
    requires |d| >= 1 && forall i :: 0 <= i < |d| ==> IsDigit(d[i])
    ensures ParseInt("-" + d) == ParseSigned("-" + d)
  {
    var t := "-" + d;
    assert t[|t| - 1] == d[|d| - 1];
    StripUnchanged(t);
  }

  lemma SignedNegativeDigits(d: string)
    requires |d| >= 1 && forall i :: 0 <= i < |d| ==> IsDigit(d[i])
    ensures ParseSigned("-" + d) == Ok(-(DigitsValue(d) as int))
  {
    var t := "-" + d;
    assert t[1..] == d;
  }

  // ------------------------------------------------------------- ordering

  /** Python's `<=` on strings: lexicographic by code point. */
  predicate StrLe(a: string, b: string)
  {
    if a == [] then true
    else if b == [] then false
    else if a[0] != b[0] then a[0] < b[0]
    else StrLe(a[1..], b[1..])
  }

  lemma {:induction false} StrLeTotal(a: string, b: string)
    ensures StrLe(a, b) || StrLe(b, a)
    ensures StrLe(a, b) && StrLe(b, a) ==> a == b
  {
    if a != [] && b != [] && a[0] == b[0] {
      StrLeTotal(a[1..], b[1..]);
      assert a == [a[0]] + a[1..] && b == [b[0]] + b[1..];
    }
  }

  lemma {:induction false} StrLeTransitive(a: string, b: string, c: string)
    requires StrLe(a, b) && StrLe(b, c)
    ensures StrLe(a, c)
  {
    if a != [] && b != [] && c != [] && a[0] == b[0] == c[0] {
      StrLeTransitive(a[1..], b[1..], c[1..]);
    }
  }

  /** Python's string order is a total order, so `sorted` on strings is well defined. */
  lemma StrLeTotalOrder()
    ensures Sorting.TotalOrder(StrLe)
  {
    forall a, b ensures StrLe(a, b) || StrLe(b, a) { StrLeTotal(a, b); }
    forall a, b, c | StrLe(a, b) && StrLe(b, c) ensures StrLe(a, c) { StrLeTransitive(a, b, c); }
    forall a, b | StrLe(a, b) && StrLe(b, a) ensures a == b { StrLeTotal(a, b); }
  }

  /** `sorted(xs)` for strings. */
  function SortStrings(xs: seq<string>): (r: seq<string>)
    ensures Sorting.Sorted(r, StrLe)
    ensures multiset(r) == multiset(xs)
  {
    StrLeTotalOrder();
    Sorting.SortSorted(xs, StrLe);
    Sorting.Sort(xs, StrLe)
  }
}
