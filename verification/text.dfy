/** Character classes and string helpers over ASCII: the pieces of Python's
    `str.isdigit`, `str.strip`, `str.lower`, `in` and the regex classes `\w`
    and `[0-9]` that the detectors rely on. */
module Text {

  /** `[0-9]`; also what `str.isdigit` accepts among ASCII characters. */
  predicate IsDigit(c: char) {
    '0' <= c <= '9'
  }

  /** The regex class `\w` restricted to ASCII. */
  predicate IsWordChar(c: char) {
    IsDigit(c) || 'a' <= c <= 'z' || 'A' <= c <= 'Z' || c == '_'
  }

  /** The ASCII characters `str.strip()` removes (those `str.isspace` accepts). */
  predicate IsSpace(c: char) {
    c == ' ' || c == '\t' || c == '\n' || c == '\r' || c == '\U{000B}' || c == '\U{000C}'
    || ('\U{001C}' <= c <= '\U{001F}')
  }

  function LowerChar(c: char): char {
    if 'A' <= c <= 'Z' then (c as int + 32) as char else c
  }

  /** `str.lower()` over ASCII. */
  function Lower(s: string): string {
    seq(|s|, i requires 0 <= i < |s| => LowerChar(s[i]))
  }

  /** Python's `k in s` for strings: `k` occurs in `s` at some offset. */
  predicate Contains(s: string, k: string) {
    exists i :: 0 <= i <= |s| && k <= s[i..]
  }

  /** `sep.join(parts)`. */
  function Join(parts: seq<string>, sep: string): string
    decreases |parts|
  {
    if |parts| == 0 then ""
    else if |parts| == 1 then parts[0]
    else parts[0] + sep + Join(parts[1..], sep)
  }

  /** The first index at or after `i` that does not hold whitespace, or `|s|`. */
  function SkipSpace(s: string, i: nat): (k: nat)
    requires i <= |s|
    ensures i <= k <= |s|
    ensures forall t :: i <= t < k ==> IsSpace(s[t])
    ensures k < |s| ==> !IsSpace(s[k])
    decreases |s| - i
  {
    if i < |s| && IsSpace(s[i]) then SkipSpace(s, i + 1) else i
  }

  /** The end of `s[lo..j]` once trailing whitespace is dropped. */
  function SkipSpaceBack(s: string, lo: nat, j: nat): (k: nat)
    requires lo <= j <= |s|
    ensures lo <= k <= j
    ensures forall t :: k <= t < j ==> IsSpace(s[t])
    ensures k > lo ==> !IsSpace(s[k - 1])
    decreases j
  {
    if j > lo && IsSpace(s[j - 1]) then SkipSpaceBack(s, lo, j - 1) else j
  }

  /** `str.strip()`: the longest infix of `s` that neither starts nor ends with
      whitespace, obtained by dropping whitespace from both ends. */
  function Strip(s: string): (r: string)
    ensures r == [] || (!IsSpace(r[0]) && !IsSpace(r[|r| - 1]))
    ensures r == [] <==> forall i :: 0 <= i < |s| ==> IsSpace(s[i])
    ensures exists i, j ::
              && 0 <= i <= j <= |s| && r == s[i..j]
              && (forall t :: 0 <= t < i ==> IsSpace(s[t]))
              && (forall t :: j <= t < |s| ==> IsSpace(s[t]))
  {
    var i := SkipSpace(s, 0);
    var j := SkipSpaceBack(s, i, |s|);
    s[i..j]
  }

  /** Text without surrounding whitespace strips to itself. */
  lemma StripUnpadded(s: string)
    requires s == [] || (!IsSpace(s[0]) && !IsSpace(s[|s| - 1]))
    ensures Strip(s) == s
  {
  }

  predicate AllDigits(s: string) {
    forall i :: 0 <= i < |s| ==> IsDigit(s[i])
  }

  /** `str.isdigit()` over ASCII: non-empty and digits only. */
  predicate IsDigits(s: string) {
    |s| > 0 && AllDigits(s)
  }

  function DigitValue(c: char): int {
    c as int - '0' as int
  }

  /** `int(s)` for a string of decimal digits; leading zeros are allowed. */
  function DigitsValue(s: string): int
    decreases |s|
  {
    if |s| == 0 then 0 else DigitsValue(s[..|s| - 1]) * 10 + DigitValue(s[|s| - 1])
  }

  function Pow10(k: nat): nat {
    if k == 0 then 1 else 10 * Pow10(k - 1)
  }

  /** Leading `'0'` characters of `s`. */
  function LeadingZeros(s: string): (n: nat)
    ensures n <= |s|
    ensures forall i :: 0 <= i < n ==> s[i] == '0'
    ensures n < |s| ==> s[n] != '0'
    decreases |s|
  {
    if |s| > 0 && s[0] == '0' then 1 + LeadingZeros(s[1..]) else 0
  }

  /** Positional notation: the digits of `b` are the low-order ones. */
  lemma {:induction false} DigitsValueConcat(a: string, b: string)
    ensures DigitsValue(a + b) == DigitsValue(a) * Pow10(|b|) + DigitsValue(b)
    decreases |b|
  {
    if |b| == 0 {
      assert a + b == a;
    } else {
      var init := b[..|b| - 1];
      var d := DigitValue(b[|b| - 1]);
      assert (a + b)[..|a + b| - 1] == a + init;
      assert (a + b)[|a + b| - 1] == b[|b| - 1];
      DigitsValueConcat(a, init);
      assert DigitsValue(a + b) == (DigitsValue(a) * Pow10(|init|) + DigitsValue(init)) * 10 + d;
      assert DigitsValue(a) * Pow10(|init|) * 10 == DigitsValue(a) * Pow10(|b|);
    }
  }

  lemma {:induction false} ZerosValue(s: string)
    requires forall i :: 0 <= i < |s| ==> s[i] == '0'
    ensures DigitsValue(s) == 0
    decreases |s|
  {
    if |s| > 0 {
      ZerosValue(s[..|s| - 1]);
    }
  }

  /** Leading zeros do not change the value `int()` reads. */
  lemma ZeroPaddedValue(s: string, n: nat)
    requires n <= |s| && forall i :: 0 <= i < n ==> s[i] == '0'
    ensures DigitsValue(s) == DigitsValue(s[n..])
  {
    assert s == s[..n] + s[n..];
    DigitsValueConcat(s[..n], s[n..]);
    ZerosValue(s[..n]);
  }

  lemma {:induction false} DigitsValueNonNegative(s: string)
    requires AllDigits(s)
    ensures DigitsValue(s) >= 0
    decreases |s|
  {
    if |s| > 0 {
      DigitsValueNonNegative(s[..|s| - 1]);
    }
  }

  /** Reading fewer leading digits never gives a larger number. */
  lemma {:induction false} PrefixValueAtMost(s: string, n: nat)
    requires AllDigits(s) && n <= |s|
    ensures DigitsValue(s[..n]) <= DigitsValue(s)
    decreases |s|
  {
    if n < |s| {
      var p := s[..|s| - 1];
      assert p[..n] == s[..n];
      PrefixValueAtMost(p, n);
      DigitsValueNonNegative(p);
    } else {
      assert s[..n] == s;
    }
  }

  lemma LowerAppend(a: string, b: string)
    ensures Lower(a + b) == Lower(a) + Lower(b)
  {
  }

  /** A keyword without the separator character occurs in `a + [sep] + b`
      exactly when it occurs in `a` or in `b`: it cannot straddle the separator. */
  lemma ContainsAcrossSeparator(a: string, sep: char, b: string, k: string)
    requires sep !in k
    ensures Contains(a + [sep] + b, k) <==> Contains(a, k) || Contains(b, k)
  {
    var w := a + [sep] + b;
    if Contains(w, k) {
      var i :| 0 <= i <= |w| && k <= w[i..];
      assert forall j :: 0 <= j < |k| ==> k[j] == w[i + j] && k[j] != sep;
      assert w[|a|] == sep;
      // so the occurrence lies wholly before or wholly after the separator
      if i + |k| <= |a| {
        assert k <= a[i..];
      } else {
        assert k <= b[i - |a| - 1..];
      }
    }
    if Contains(a, k) {
      var i :| 0 <= i <= |a| && k <= a[i..];
      assert k <= w[i..];
    }
    if Contains(b, k) {
      var i :| 0 <= i <= |b| && k <= b[i..];
      assert k <= w[|a| + 1 + i..];
    }
  }

  /** A non-empty keyword without spaces occurs in the space-joined,
      lower-cased parts exactly when it occurs in one lower-cased part. */
  lemma {:induction false} ContainsInJoin(parts: seq<string>, k: string)
    requires ' ' !in k && |k| > 0
    ensures Contains(Lower(Join(parts, " ")), k) <==> exists p :: p in parts && Contains(Lower(p), k)
    decreases |parts|
  {
    if |parts| == 0 {
      assert Lower("") == "";
    } else if |parts| == 1 {
      assert forall p :: p in parts ==> p == parts[0];
    } else {
      var rest := Join(parts[1..], " ");
      ContainsInJoin(parts[1..], k);
      LowerAppend(parts[0] + " ", rest);
      LowerAppend(parts[0], " ");
      assert Lower(" ") == [' '];
      ContainsAcrossSeparator(Lower(parts[0]), ' ', Lower(rest), k);
      assert Lower(Join(parts, " ")) == Lower(parts[0]) + [' '] + Lower(rest);
      assert forall p :: p in parts <==> p == parts[0] || p in parts[1..];
    }
  }
}
