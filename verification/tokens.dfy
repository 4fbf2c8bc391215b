/** The number-token extractor shared by both pollers: the regular expression
    `\b([1-9]|[1-7][0-9]|80)\b` used with `re.findall` (app.py line 57 and 81,
    bot.py line 95), written as a character scanner, together with the
    declarative set of tokens it must find. */
module Tokens {
  import opened Text

  /** The alternatives `[1-9]`, `[1-7][0-9]` and `80` of the pattern. */
  predicate IsNumeral(t: string) {
    || (|t| == 1 && '1' <= t[0] <= '9')
    || (|t| == 2 && '1' <= t[0] <= '7' && IsDigit(t[1]))
    || t == "80"
  }

  /** `s[i..j]` is a maximal run of word characters: a `\b` on either side. */
  predicate IsWordRun(s: string, i: int, j: int) {
    && 0 <= i < j <= |s|
    && (forall t :: i <= t < j ==> IsWordChar(s[t]))
    && (i == 0 || !IsWordChar(s[i - 1]))
    && (j == |s| || !IsWordChar(s[j]))
  }

  predicate IsNumberToken(s: string, i: int, j: int) {
    IsWordRun(s, i, j) && IsNumeral(s[i..j])
  }

  /** Reference definition: the numerals that fill a whole maximal word run of `s`. */
  function NumberTokens(s: string): set<string> {
    set i, j | 0 <= i < j <= |s| && IsNumberToken(s, i, j) :: s[i..j]
  }

  /** The integer values of a set of numerals, as `int(num)` maps them. */
  function Values(tokens: set<string>): set<int> {
    set t | t in tokens :: DigitsValue(t)
  }

  /** The distinct values the pattern finds in `s`. */
  function TokenValues(s: string): set<int> {
    Values(NumberTokens(s))
  }

  /** End of the run of word characters that starts at `k`. */
  function RunEnd(s: string, k: nat): (m: nat)
    requires k <= |s|
    ensures k <= m <= |s|
    ensures forall t :: k <= t < m ==> IsWordChar(s[t])
    ensures m == |s| || !IsWordChar(s[m])
    decreases |s| - k
  {
    if k < |s| && IsWordChar(s[k]) then RunEnd(s, k + 1) else k
  }

  /** Scanner: skips non-word characters, reads each run of word characters
      whole, and reports the runs that spell a numeral, left to right. */
  function ScanFrom(s: string, k: nat): (r: seq<string>)
    requires k <= |s|
    ensures forall t :: 0 <= t < |r| ==> IsNumeral(r[t])
    decreases |s| - k
  {
    if k == |s| then []
    else if !IsWordChar(s[k]) then ScanFrom(s, k + 1)
    else
      var m := RunEnd(s, k);
      var run := s[k..m];
      (if IsNumeral(run) then [run] else []) + ScanFrom(s, m)
  }

  /** `re.findall(r'\b([1-9]|[1-7][0-9]|80)\b', s)`: the matched strings in order,
      repeats included. Its distinct members are exactly the reference tokens. */
  function FindNumbers(s: string): (r: seq<string>)
    ensures (set t | t in r) == NumberTokens(s)
    ensures forall t :: t in r ==> IsNumeral(t)
  {
    ScanExact(s, 0);
    assert TokensFrom(s, 0) == NumberTokens(s);
    ScanFrom(s, 0)
  }

  /** A position the scanner may resume from: not strictly inside a word run. */
  predicate AtBoundary(s: string, k: nat)
    requires k <= |s|
  {
    k == 0 || k == |s| || !IsWordChar(s[k - 1]) || !IsWordChar(s[k])
  }

  ghost function TokensFrom(s: string, k: nat): set<string> {
    set i, j | k <= i < j <= |s| && IsNumberToken(s, i, j) :: s[i..j]
  }

  lemma TokensFromEnd(s: string)
    ensures TokensFrom(s, |s|) == {}
  {
  }

  lemma TokensFromSkip(s: string, k: nat)
    requires k < |s| && !IsWordChar(s[k])
    ensures TokensFrom(s, k) == TokensFrom(s, k + 1)
  {
  }

  lemma TokensFromRun(s: string, k: nat, m: nat)
    requires k < m <= |s|
    requires k == 0 || !IsWordChar(s[k - 1])
    requires forall t :: k <= t < m ==> IsWordChar(s[t])
    requires m == |s| || !IsWordChar(s[m])
    ensures TokensFrom(s, k)
         == (if IsNumeral(s[k..m]) then {s[k..m]} else {}) + TokensFrom(s, m)
  {
  }

  /** The scanner, started at a boundary, finds exactly the reference tokens
      that start at or after that position. */
  lemma {:induction false} ScanExact(s: string, k: nat)
    requires k <= |s| && AtBoundary(s, k)
    ensures (set t | t in ScanFrom(s, k)) == TokensFrom(s, k)
    decreases |s| - k
  {
    if k == |s| {
      TokensFromEnd(s);
    } else if !IsWordChar(s[k]) {
      ScanExact(s, k + 1);
      TokensFromSkip(s, k);
    } else {
      var m := RunEnd(s, k);
      ScanExact(s, m);
      TokensFromRun(s, k, m);
      var head := if IsNumeral(s[k..m]) then [s[k..m]] else [];
      assert ScanFrom(s, k) == head + ScanFrom(s, m);
    }
  }

  /** Cutting away characters that are not word characters from both ends
      keeps every token: no word run reaches into the part cut away. */
  lemma InfixTokens(s: string, a: nat, b: nat)
    requires a <= b <= |s|
    requires forall t :: 0 <= t < a ==> !IsWordChar(s[t])
    requires forall t :: b <= t < |s| ==> !IsWordChar(s[t])
    ensures NumberTokens(s[a..b]) == NumberTokens(s)
  {
    var u := s[a..b];
    forall x | x in NumberTokens(u)
      ensures x in NumberTokens(s)
    {
      var i, j :| 0 <= i < j <= |u| && IsNumberToken(u, i, j) && x == u[i..j];
      InfixTokenInWhole(s, a, b, i, j);
    }
    forall x | x in NumberTokens(s)
      ensures x in NumberTokens(u)
    {
      var i, j :| 0 <= i < j <= |s| && IsNumberToken(s, i, j) && x == s[i..j];
      WholeTokenInInfix(s, a, b, i, j);
    }
  }

  lemma InfixTokenInWhole(s: string, a: nat, b: nat, i: nat, j: nat)
    requires a <= b <= |s|
    requires forall t :: 0 <= t < a ==> !IsWordChar(s[t])
    requires forall t :: b <= t < |s| ==> !IsWordChar(s[t])
    requires IsNumberToken(s[a..b], i, j)
    ensures IsNumberToken(s, a + i, a + j) && s[a + i..a + j] == s[a..b][i..j]
  {
    var u := s[a..b];
    assert forall t :: i <= t < j ==> s[a + t] == u[t];
    assert i > 0 ==> s[a + i - 1] == u[i - 1];
    assert j < |u| ==> s[a + j] == u[j];
    assert u[i..j] == s[a + i..a + j];
  }

  lemma WholeTokenInInfix(s: string, a: nat, b: nat, i: nat, j: nat)
    requires a <= b <= |s|
    requires forall t :: 0 <= t < a ==> !IsWordChar(s[t])
    requires forall t :: b <= t < |s| ==> !IsWordChar(s[t])
    requires IsNumberToken(s, i, j)
    ensures a <= i && j <= b
    ensures IsNumberToken(s[a..b], i - a, j - a) && s[a..b][i - a..j - a] == s[i..j]
  {
  }

  /** `str.strip()` before `re.findall` changes nothing: whitespace is never
      a word character, so the same tokens are found. */
  lemma StripKeepsTokens(s: string)
    ensures NumberTokens(Strip(s)) == NumberTokens(s)
  {
    var a := SkipSpace(s, 0);
    var b := SkipSpaceBack(s, a, |s|);
    assert Strip(s) == s[a..b];
    InfixTokens(s, a, b);
  }

  /** A numeral is exactly a digit string with no leading zero whose value is
      between 1 and 80. */
  lemma NumeralIsDecimal(t: string)
    ensures IsNumeral(t) <==> IsDigits(t) && t[0] != '0' && 1 <= DigitsValue(t) <= 80
  {
    if IsDigits(t) && t[0] != '0' && |t| >= 3 {
      AtLeastHundred(t);
    }
    if |t| == 2 {
      TwoDigitValue(t);
    }
    if |t| == 1 {
      assert t[..0] == [];
    }
  }

  lemma TwoDigitValue(t: string)
    requires |t| == 2
    ensures DigitsValue(t) == DigitValue(t[0]) * 10 + DigitValue(t[1])
  {
    var p := t[..1];
    assert p[..0] == [];
    assert DigitsValue(p) == DigitValue(t[0]);
  }

  lemma AtLeastHundred(t: string)
    requires IsDigits(t) && t[0] != '0' && |t| >= 3
    ensures DigitsValue(t) >= 100
  {
    PrefixValueAtMost(t, 3);
    var p := t[..3];
    TwoDigitValue(p[..2]);
    assert DigitsValue(p) == DigitsValue(p[..2]) * 10 + DigitValue(p[2]);
  }

  lemma NumeralValueInRange(t: string)
    requires IsNumeral(t)
    ensures 1 <= DigitsValue(t) <= 80
  {
    NumeralIsDecimal(t);
  }

  /** Different numerals have different values, so `int` loses nothing. */
  lemma NumeralValueInjective(a: string, b: string)
    requires IsNumeral(a) && IsNumeral(b) && DigitsValue(a) == DigitsValue(b)
    ensures a == b
  {
  }

  /** Counting distinct matched strings counts distinct values. */
  lemma {:induction false} ValuesCardinality(tokens: set<string>)
    requires forall t :: t in tokens ==> IsNumeral(t)
    ensures |Values(tokens)| == |tokens|
    decreases |tokens|
  {
    if tokens != {} {
      var x :| x in tokens;
      var rest := tokens - {x};
      ValuesCardinality(rest);
      assert Values(tokens) == Values(rest) + {DigitsValue(x)};
      if DigitsValue(x) in Values(rest) {
        var y :| y in rest && DigitsValue(y) == DigitsValue(x);
        NumeralValueInjective(x, y);
        assert false;
      }
    }
  }

  /** Every value the pattern yields is a Keno number. */
  lemma TokenValuesInRange(s: string)
    ensures forall v :: v in TokenValues(s) ==> 1 <= v <= 80
  {
    forall v | v in TokenValues(s)
      ensures 1 <= v <= 80
    {
      var t :| t in NumberTokens(s) && v == DigitsValue(t);
      NumeralIsDecimal(t);
    }
  }

  lemma RunEndFortyTwo()
    ensures RunEnd("42", 0) == 2
  {
  }

  /** A bare "42" is one token, valued 42. */
  lemma FortyTwoExample()
    ensures FindNumbers("42") == ["42"]
    ensures TokenValues("42") == {42}
  {
    RunEndFortyTwo();
    assert "42"[0..2] == "42";
    assert ScanFrom("42", 0) == ["42"] + ScanFrom("42", 2);
    assert NumberTokens("42") == {"42"};
    assert DigitsValue("42") == 42 by {
      assert "42"[..1] == "4" && "4"[..0] == [];
    }
    assert Values({"42"}) == {42};
  }

  /** A leading zero is not a token. */
  lemma LeadingZeroExample()
    ensures NumberTokens("07") == {}
  {
  }

  /** A three-character run is never a token, even around a valid number. */
  lemma PaddedNumberExample()
    ensures NumberTokens("080") == {}
  {
  }

  /** A number glued to letters after it is not a token. */
  lemma UnitSuffixExample()
    ensures NumberTokens("42px") == {}
  {
  }

  /** A number glued to letters before it is not a token. */
  lemma LetterPrefixExample()
    ensures NumberTokens("a42") == {}
  {
  }

  /** A number past 80 is not a token. */
  lemma OutOfRangeExample()
    ensures NumberTokens("81") == {}
  {
    assert RunEnd("81", 0) == 2 by { assert RunEnd("81", 1) == 2; }
    assert FindNumbers("81") == [] by { assert ScanFrom("81", 0) == ScanFrom("81", 2); }
  }
}
