/**
 * Character, string and path helpers that mirror the Python built-ins the
 * pipeline relies on: `str.strip`, `str.lower`, `str.replace`, `in`,
 * `str.split`, `str.splitlines`, decimal formatting with `:0Nd`, `int()`
 * on digit strings, `os.path.splitext`, `os.path.basename`,
 * `os.path.join` and the `stem`/`parent` properties of `pathlib.Path`
 * (POSIX flavour).
 */
module Strings {

  import opened Wrappers

  // ---------------------------------------------------------------------
  // Characters
  // ---------------------------------------------------------------------

  predicate IsDigit(c: char) { '0' <= c <= '9' }

  predicate AllDigits(s: string) { forall i :: 0 <= i < |s| ==> IsDigit(s[i]) }

  /** The characters for which Python's `str.isspace()` holds; the regular
      expression class `\s` on `str` patterns is the same set. */
  predicate IsSpace(c: char)
  {
    c == ' ' || '\t' <= c <= '\r' || '\U{1c}' <= c <= '\U{1f}' || c == '\U{85}' ||
    c == '\U{a0}' || c == '\U{1680}' || '\U{2000}' <= c <= '\U{200a}' ||
    c == '\U{2028}' || c == '\U{2029}' || c == '\U{202f}' || c == '\U{205f}' || c == '\U{3000}'
  }

  /** Line boundaries recognised by `str.splitlines()`. */
  predicate IsLineBreak(c: char)
  {
    c == '\n' || c == '\r' || c == '\U{0b}' || c == '\U{0c}' || '\U{1c}' <= c <= '\U{1e}' ||
    c == '\U{85}' || c == '\U{2028}' || c == '\U{2029}'
  }

  function LowerChar(c: char): (r: char)
    ensures 'A' <= c <= 'Z' ==> r as int == c as int + 32
    ensures !('A' <= c <= 'Z') ==> r == c
  {
    if 'A' <= c <= 'Z' then (c as int + 32) as char else c
  }

  /** `str.lower()` restricted to ASCII letters. */
  function Lower(s: string): (r: string)
    ensures |r| == |s|
    ensures forall i :: 0 <= i < |s| ==> r[i] == LowerChar(s[i])
  {
    seq(|s|, i requires 0 <= i < |s| => LowerChar(s[i]))
  }

  // ---------------------------------------------------------------------
  // Searching
  // ---------------------------------------------------------------------

  /** `pat in s` for strings: `pat` occurs as a contiguous substring. */
  predicate Contains(s: string, pat: string)
    decreases |s|
  {
    pat <= s || (|s| > 0 && Contains(s[1..], pat))
  }

  lemma {:induction false} ContainsAt(s: string, pat: string, i: nat)
    requires i + |pat| <= |s| && s[i..i + |pat|] == pat
    ensures Contains(s, pat)
    decreases i
  {
    if i == 0 {
      assert pat <= s;
    } else {
      assert s[1..][i - 1..i - 1 + |pat|] == s[i..i + |pat|];
      ContainsAt(s[1..], pat, i - 1);
    }
  }

  lemma {:induction false} ContainsWitness(s: string, pat: string) returns (i: nat)
    requires Contains(s, pat)
    ensures i + |pat| <= |s| && s[i..i + |pat|] == pat
    decreases |s|
  {
    if pat <= s {
      i := 0;
    } else {
      var j := ContainsWitness(s[1..], pat);
      assert s[1..][j..j + |pat|] == s[j + 1..j + 1 + |pat|];
      i := j + 1;
    }
  }

  /** `str.startswith`. */
  predicate StartsWith(s: string, prefix: string) { prefix <= s }

  /** `str.endswith`. */
  predicate EndsWith(s: string, suffix: string)
  {
    |suffix| <= |s| && s[|s| - |suffix|..] == suffix
  }

  /** The names that end in `suffix`, in their original order (a list
      comprehension filtering on `str.endswith`). */
  function WithSuffix(names: seq<string>, suffix: string): (r: seq<string>)
    ensures |r| <= |names|
  {
    if |names| == 0 then []
    else
      var rest := WithSuffix(names[1..], suffix);
      if EndsWith(names[0], suffix) then [names[0]] + rest else rest
  }

  lemma {:induction false} WithSuffixSelects(names: seq<string>, suffix: string)
    ensures forall f :: f in WithSuffix(names, suffix) <==> f in names && EndsWith(f, suffix)
  {
    if |names| > 0 {
      WithSuffixSelects(names[1..], suffix);
      assert names == [names[0]] + names[1..];
    }
  }

  /** Index of the last occurrence of `c` in `s`, or -1 (`str.rfind`). */
  function LastIndexOf(s: string, c: char): (r: int)
    ensures -1 <= r < |s|
    ensures r >= 0 ==> s[r] == c
    ensures forall k :: r < k < |s| ==> s[k] != c
  {
    if |s| == 0 then -1
    else if s[|s| - 1] == c then |s| - 1
    else LastIndexOf(s[..|s| - 1], c)
  }

  /** Locating the last occurrence from its definition. */
  lemma {:induction false} LastIndexOfIs(s: string, c: char, i: nat)
    requires i < |s| && s[i] == c
    requires forall k :: i < k < |s| ==> s[k] != c
    ensures LastIndexOf(s, c) == i
    decreases |s|
  {
    if i < |s| - 1 {
      LastIndexOfIs(s[..|s| - 1], c, i);
    }
  }

  // ---------------------------------------------------------------------
  // Rewriting
  // ---------------------------------------------------------------------

  /** `s.replace(c, '')` for a single character. */
  function RemoveChar(s: string, c: char): (r: string)
    ensures forall i :: 0 <= i < |r| ==> r[i] != c
    ensures |r| <= |s|
    ensures (forall i :: 0 <= i < |s| ==> s[i] != c) ==> r == s
  {
    if |s| == 0 then []
    else if s[0] == c then RemoveChar(s[1..], c)
    else [s[0]] + RemoveChar(s[1..], c)
  }

  /** `s.replace(a + b, '')`: removes non-overlapping occurrences of the
      two-character pattern, scanning left to right. */
  function RemovePair(s: string, a: char, b: char): (r: string)
    ensures |r| <= |s|
    decreases |s|
  {
    if |s| < 2 then s
    else if s[0] == a && s[1] == b then RemovePair(s[2..], a, b)
    else [s[0]] + RemovePair(s[1..], a, b)
  }

  /** Without the first character of the pattern there is nothing to
      remove. */
  lemma {:induction false} RemovePairAbsent(s: string, a: char, b: char)
    requires a !in s
    ensures RemovePair(s, a, b) == s
    decreases |s|
  {
    if |s| >= 2 {
      assert s[0] in s;
      assert forall k :: 0 <= k < |s| - 1 ==> s[1..][k] == s[k + 1];
      RemovePairAbsent(s[1..], a, b);
      assert s == [s[0]] + s[1..];
    }
  }

  /** Removes every character for which `keep` is false (`re.sub` with a
      negated character class and an empty replacement). */
  function Filter(s: string, keep: char -> bool): (r: string)
    ensures forall i :: 0 <= i < |r| ==> keep(r[i])
    ensures (forall i :: 0 <= i < |s| ==> keep(s[i])) ==> r == s
    ensures forall i :: 0 <= i < |s| && keep(s[i]) ==> s[i] in r
  {
    if |s| == 0 then []
    else if keep(s[0]) then [s[0]] + Filter(s[1..], keep)
    else Filter(s[1..], keep)
  }

  function LStrip(s: string): (r: string)
    ensures |r| <= |s| && r == s[|s| - |r|..]
    ensures |r| > 0 ==> !IsSpace(r[0])
    ensures forall i :: 0 <= i < |s| - |r| ==> IsSpace(s[i])
  {
    if |s| > 0 && IsSpace(s[0]) then LStrip(s[1..]) else s
  }

  function RStrip(s: string): (r: string)
    ensures |r| <= |s| && r == s[..|r|]
    ensures |r| > 0 ==> !IsSpace(r[|r| - 1])
    ensures forall i :: |r| <= i < |s| ==> IsSpace(s[i])
  {
    if |s| > 0 && IsSpace(s[|s| - 1]) then RStrip(s[..|s| - 1]) else s
  }

  /** `str.strip()` with no argument. */
  function Strip(s: string): (r: string)
    ensures |r| <= |s|
    ensures |r| > 0 ==> !IsSpace(r[0]) && !IsSpace(r[|r| - 1])
    ensures (|s| > 0 && !IsSpace(s[0]) && !IsSpace(s[|s| - 1])) ==> r == s
  {
    RStrip(LStrip(s))
  }

  // ---------------------------------------------------------------------
  // Splitting
  // ---------------------------------------------------------------------

  /** `s.split(sep)` with an explicit one-character separator. */
  function Split(s: string, sep: char): (parts: seq<string>)
    ensures |parts| >= 1
    ensures forall k :: 0 <= k < |parts| ==> sep !in parts[k]
    ensures (forall i :: 0 <= i < |s| ==> s[i] != sep) ==> parts == [s]
  {
    var i := LastIndexOf(s, sep);
    if i < 0 then [s] else Split(s[..i], sep) + [s[i + 1..]]
  }

  /** A property every character of `s` has, every character of every
      part has. */
  lemma {:induction false} SplitKeeps(s: string, sep: char, p: char -> bool)
    requires forall i :: 0 <= i < |s| ==> p(s[i])
    ensures var parts := Split(s, sep);
      forall k, i :: 0 <= k < |parts| && 0 <= i < |parts[k]| ==> p(parts[k][i])
    decreases |s|
  {
    var i := LastIndexOf(s, sep);
    if i >= 0 {
      SplitKeeps(s[..i], sep, p);
      var parts := Split(s, sep);
      assert parts == Split(s[..i], sep) + [s[i + 1..]];
    }
  }

  /** Index of the first line break in `s`, or `|s|`. */
  function FirstBreak(s: string): (i: nat)
    ensures i <= |s|
    ensures forall k :: 0 <= k < i ==> !IsLineBreak(s[k])
    ensures i < |s| ==> IsLineBreak(s[i])
  {
    if |s| == 0 || IsLineBreak(s[0]) then 0 else 1 + FirstBreak(s[1..])
  }

  /** `str.splitlines()`: "\r\n" is one boundary and a trailing boundary
      does not produce an empty last line. */
  function SplitLines(s: string): (lines: seq<string>)
    ensures forall k, j :: 0 <= k < |lines| && 0 <= j < |lines[k]| ==> !IsLineBreak(lines[k][j])
    ensures (forall j :: 0 <= j < |s| ==> !IsLineBreak(s[j])) ==> lines == (if s == [] then [] else [s])
    decreases |s|
  {
    if s == [] then []
    else
      var i := FirstBreak(s);
      if i == |s| then [s]
      else
        var width := if s[i] == '\r' && i + 1 < |s| && s[i + 1] == '\n' then 2 else 1;
        [s[..i]] + SplitLines(s[i + width..])
  }

  // ---------------------------------------------------------------------
  // Decimal numbers
  // ---------------------------------------------------------------------

  function DigitChar(d: nat): (c: char)
    requires d < 10
    ensures IsDigit(c) && (c as int) - ('0' as int) == d
  {
    ('0' as int + d) as char
  }

  function DigitValue(c: char): (d: nat)
    requires IsDigit(c)
    ensures d < 10
  {
    (c as int) - ('0' as int)
  }

  /** `int(s)` for a non-empty string of ASCII digits. */
  function DigitsValue(s: string): (n: nat)
    requires AllDigits(s)
  {
    if |s| == 0 then 0 else DigitsValue(s[..|s| - 1]) * 10 + DigitValue(s[|s| - 1])
  }

  /** `str(n)` for a natural number. */
  function NatToString(n: nat): (s: string)
    ensures |s| >= 1 && AllDigits(s)
    ensures n < 10 <==> |s| == 1
  {
    if n < 10 then [DigitChar(n)] else NatToString(n / 10) + [DigitChar(n % 10)]
  }

  function Zeros(k: nat): (s: string)
    ensures |s| == k && forall i :: 0 <= i < k ==> s[i] == '0'
  {
    seq(k, _ => '0')
  }

  /** `f"{n:0{width}d}"`: the decimal digits of `n`, padded with leading
      zeros to at least `width` characters. */
  function ZeroPad(n: nat, width: nat): (s: string)
    ensures AllDigits(s)
    ensures |s| == if |NatToString(n)| < width then width else |NatToString(n)|
  {
    var d := NatToString(n);
    if |d| < width then Zeros(width - |d|) + d else d
  }

  lemma {:induction false} NatToStringValue(n: nat)
    ensures DigitsValue(NatToString(n)) == n
  {
    var s := NatToString(n);
    if n >= 10 {
      NatToStringValue(n / 10);
      assert s[..|s| - 1] == NatToString(n / 10);
    }
  }

  lemma NatToStringShort(n: nat)
    ensures n < 100 ==> |NatToString(n)| <= 2
    ensures n < 1000 ==> |NatToString(n)| <= 3
  {
    if n >= 10 {
      assert NatToString(n) == NatToString(n / 10) + [DigitChar(n % 10)];
      if n >= 100 {
        assert NatToString(n / 10) == NatToString(n / 100) + [DigitChar(n / 10 % 10)];
      }
    }
  }

  lemma {:induction false} LeadingZerosValue(z: string, s: string)
    requires AllDigits(s) && forall i :: 0 <= i < |z| ==> z[i] == '0'
    ensures AllDigits(z + s) && DigitsValue(z + s) == DigitsValue(s)
    decreases |z| + |s|
  {
    if |s| == 0 {
      assert z + s == z;
      if |z| > 0 {
        LeadingZerosValue(z[..|z| - 1], []);
        assert z[..|z| - 1] + [] == z[..|z| - 1];
      }
    } else {
      LeadingZerosValue(z, s[..|s| - 1]);
      assert (z + s)[..|z + s| - 1] == z + s[..|s| - 1];
    }
  }

  /** Reading a zero-padded number back gives the number. */
  lemma ZeroPadValue(n: nat, width: nat)
    ensures DigitsValue(ZeroPad(n, width)) == n
  {
    NatToStringValue(n);
    var d := NatToString(n);
    if |d| < width {
      var z := Zeros(width - |d|);
      LeadingZerosValue(z, d);
      assert ZeroPad(n, width) == z + d;
    } else {
      assert ZeroPad(n, width) == d;
    }
  }

  lemma {:induction false} DigitsValueInjective(a: string, b: string)
    requires AllDigits(a) && AllDigits(b) && |a| == |b|
    requires DigitsValue(a) == DigitsValue(b)
    ensures a == b
    decreases |a|
  {
    if |a| > 0 {
      var a', b' := a[..|a| - 1], b[..|b| - 1];
      assert DigitsValue(a') * 10 + DigitValue(a[|a| - 1]) == DigitsValue(b') * 10 + DigitValue(b[|b| - 1]);
      assert DigitValue(a[|a| - 1]) == DigitValue(b[|b| - 1]);
      DigitsValueInjective(a', b');
      assert a == a' + [a[|a| - 1]] && b == b' + [b[|b| - 1]];
    }
  }

  // ---------------------------------------------------------------------
  // Decimal fractions
  // ---------------------------------------------------------------------

  function Pow10(k: nat): (r: real)
    ensures r >= 1.0
  {
    if k == 0 then 1.0 else 10.0 * Pow10(k - 1)
  }

  predicate DigitsAndDots(s: string) { forall i :: 0 <= i < |s| ==> IsDigit(s[i]) || s[i] == '.' }

  /** The value of the decimal numeral `intDigits.fracDigits`. */
  function DecimalValue(intDigits: string, fracDigits: string): (r: real)
    requires AllDigits(intDigits) && AllDigits(fracDigits)
    ensures r >= 0.0
  {
    DigitsValue(intDigits) as real + DigitsValue(fracDigits) as real / Pow10(|fracDigits|)
  }

  /** `float(s)` for a string made of digits and dots: it is a number when it
      has at most one dot and at least one digit ("5", "5.", ".5", "5.25"),
      and `float` raises `ValueError` otherwise ("", ".", "1.2.3"). */
  function ParseDecimal(s: string): (r: Option<real>)
    requires DigitsAndDots(s)
    ensures r.Some? ==> r.value >= 0.0
    ensures AllDigits(s) ==> r == if |s| == 0 then None else Some(DigitsValue(s) as real)
  {
    var dot := LastIndexOf(s, '.');
    if dot < 0 then (if |s| == 0 then None else Some(DigitsValue(s) as real))
    else
      var intPart, fracPart := s[..dot], s[dot + 1..];
      if !AllDigits(intPart) || |intPart| + |fracPart| == 0 then None
      else Some(DecimalValue(intPart, fracPart))
  }

  /** `float(str(n))` is `n`. */
  lemma ParseDecimalOfNat(n: nat)
    ensures DigitsAndDots(NatToString(n)) && ParseDecimal(NatToString(n)) == Some(n as real)
  {
    NatToStringValue(n);
  }

  /** `float(i + "." + f)` for digit strings with at least one digit. */
  lemma ParseDecimalDotted(i: string, f: string)
    requires AllDigits(i) && AllDigits(f) && |i| + |f| > 0
    ensures DigitsAndDots(i + "." + f)
    ensures ParseDecimal(i + "." + f) == Some(DecimalValue(i, f))
  {
    var s := i + "." + f;
    assert forall k :: 0 <= k < |i| ==> s[k] == i[k];
    assert s[|i|] == '.';
    assert forall k :: |i| < k < |s| ==> s[k] == f[k - |i| - 1];
    assert LastIndexOf(s, '.') == |i|;
    assert s[..|i|] == i && s[|i| + 1..] == f;
  }

  /** The strings of digits and dots that `float` accepts: at most one
      dot and at least one digit. */
  predicate DecimalNumeral(s: string)
  {
    && DigitsAndDots(s)
    && (forall i, j :: 0 <= i < j < |s| && s[i] == '.' ==> s[j] != '.')
    && (exists i :: 0 <= i < |s| && IsDigit(s[i]))
  }

  /** `ParseDecimal` gives a value exactly for the numerals `float` accepts. */
  lemma ParseDecimalDefined(s: string)
    requires DigitsAndDots(s)
    ensures ParseDecimal(s).Some? <==> DecimalNumeral(s)
  {
    var dot := LastIndexOf(s, '.');
    if dot < 0 {
      assert AllDigits(s);
      if |s| > 0 {
        assert IsDigit(s[0]);
      }
    } else {
      var intPart, fracPart := s[..dot], s[dot + 1..];
      assert forall k :: 0 <= k < dot ==> s[k] == intPart[k];
      assert forall k :: dot < k < |s| ==> s[k] == fracPart[k - dot - 1];
      if ParseDecimal(s).Some? {
        assert forall k :: 0 <= k < |s| && k != dot ==> IsDigit(s[k]);
        if dot > 0 {
          assert IsDigit(s[dot - 1]);
        } else {
          assert IsDigit(s[dot + 1]);
        }
      }
      if DecimalNumeral(s) {
        assert forall k :: 0 <= k < dot ==> s[k] != '.';
        assert AllDigits(intPart);
        var i :| 0 <= i < |s| && IsDigit(s[i]);
        assert i != dot;
      }
    }
  }

  // ---------------------------------------------------------------------
  // Paths (POSIX)
  // ---------------------------------------------------------------------

  /** `os.path.splitext(p)[1]`: from the last '.' of the last path
      component, unless that component has only dots before it. */
  function Extension(p: string): (ext: string)
    ensures ext == [] || (ext[0] == '.' && EndsWith(p, ext))
  {
    var sep := LastIndexOf(p, '/');
    var dot := LastIndexOf(p, '.');
    if dot > sep && exists k :: sep + 1 <= k < dot && p[k] != '.' then p[dot..] else []
  }

  /** `os.path.basename(p)`. */
  function Basename(p: string): (b: string)
    ensures '/' !in b && EndsWith(p, b)
  {
    p[LastIndexOf(p, '/') + 1..]
  }

  /** `pathlib.Path(p).stem`: the last component without its suffix, where a
      leading dot or a trailing dot is not a suffix. */
  function Stem(p: string): (s: string)
    ensures |s| <= |Basename(p)|
  {
    var name := Basename(p);
    var i := LastIndexOf(name, '.');
    if 0 < i < |name| - 1 then name[..i] else name
  }

  /** `str(pathlib.Path(p).parent)` for a path without redundant separators. */
  function Parent(p: string): (r: string)
    ensures |r| >= 1
  {
    var sep := LastIndexOf(p, '/');
    if sep < 0 then "." else if sep == 0 then "/" else p[..sep]
  }

  /** `os.path.join(a, b)`. */
  function Join(a: string, b: string): (r: string)
    ensures EndsWith(r, b)
  {
    if |b| > 0 && b[0] == '/' then b
    else if a == [] || EndsWith(a, "/") then a + b
    else a + "/" + b
  }
}
