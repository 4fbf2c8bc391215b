/** `KenoCloudMonitor.detect_bright_numbers` of bot.py (lines 56-140): three
    strategies over the parsed elements, a fourth over the raw markup, their
    union, and the false-positive filter. */
module BotDetect {
  import opened Wrappers
  import opened Text
  import opened Tokens
  import opened Markup

  /** Class keywords of strategy 1 (bot.py line 69). */
  const StrongIndicators: seq<string> := ["blink", "flash", "pulse", "shine", "glowing", "preview", "nextdraw"]
  /** Style keywords of strategy 2 (bot.py line 82). */
  const AnimationStyles: seq<string> := ["animation", "blink", "flash", "glow", "pulse"]
  /** Class keywords of strategy 3 (bot.py line 92). */
  const PreviewContainers: seq<string> := ["preview", "next", "upcoming", "temp", "short", "live"]
  /** More candidates than this are taken to be the full number grid. */
  const MaxBright: nat := 15

  /** Strategies 1 and 2 read an element as one number: its stripped text must
      be all digits (leading zeros allowed) with a value in 1..80. */
  function BareNumber(text: string): (r: Option<int>)
    ensures r.Some? ==> IsKenoNumber(r.value)
  {
    var t := Strip(text);
    if IsDigits(t) && 1 <= DigitsValue(t) <= 80 then Some(DigitsValue(t)) else None
  }

  /** Strategy 1: elements carrying a strong-indicator class. */
  function ByStrongClass(els: seq<Element>): (r: set<int>)
    ensures forall v :: v in r ==> IsKenoNumber(v)
    ensures forall v :: v in r <==>
      exists i :: 0 <= i < |els| && ClassMentions(els[i], StrongIndicators) && BareNumber(els[i].text) == Some(v)
  {
    set i | 0 <= i < |els| && ClassMentions(els[i], StrongIndicators) && BareNumber(els[i].text).Some?
      :: BareNumber(els[i].text).value
  }

  /** Strategy 2: elements whose inline style names an animation. */
  function ByAnimationStyle(els: seq<Element>): (r: set<int>)
    ensures forall v :: v in r ==> IsKenoNumber(v)
    ensures forall v :: v in r <==>
      exists i :: 0 <= i < |els| && MentionsAny(els[i].style, AnimationStyles) && BareNumber(els[i].text) == Some(v)
  {
    set i | 0 <= i < |els| && MentionsAny(els[i].style, AnimationStyles) && BareNumber(els[i].text).Some?
      :: BareNumber(els[i].text).value
  }

  /** Strategy 3: every number token in the text of a preview-like container. */
  function ByPreviewContainer(els: seq<Element>): (r: set<int>)
    ensures forall v :: v in r ==> IsKenoNumber(v)
    ensures forall v :: v in r <==>
      exists i :: 0 <= i < |els| && ClassMentions(els[i], PreviewContainers) && v in TokenValues(els[i].text)
  {
    var r := set i, t | 0 <= i < |els| && ClassMentions(els[i], PreviewContainers) && t in FindNumbers(els[i].text)
      :: DigitsValue(t);
    forall v | v in r
      ensures IsKenoNumber(v)
    {
      var i, t :| 0 <= i < |els| && t in FindNumbers(els[i].text) && v == DigitsValue(t);
      var toks := FindNumbers(els[i].text);
      assert t in toks;
      NumeralValueInRange(t);
    }
    r
  }

  /** Strategy 4: the numbers captured by the raw-markup patterns of bot.py
      lines 102-106, given as an input, kept only when in 1..80. */
  function ByRawPatterns(hits: set<int>): (r: set<int>)
    ensures forall v :: v in r ==> IsKenoNumber(v)
    ensures forall v :: IsKenoNumber(v) ==> (v in r <==> v in hits)
  {
    set v | v in hits && 1 <= v <= 80
  }

  /** The union of the four strategies, before filtering. */
  function Candidates(els: seq<Element>, hits: set<int>): (r: set<int>)
    ensures forall v :: v in r ==> IsKenoNumber(v)
  {
    ByStrongClass(els) + ByAnimationStyle(els) + ByPreviewContainer(els) + ByRawPatterns(hits)
  }

  /** `min(c) == x`. */
  predicate IsMinimum(c: set<int>, x: int) {
    x in c && forall v :: v in c ==> x <= v
  }

  /** `max(c) >= x`. */
  predicate MaxAtLeast(c: set<int>, x: int) {
    exists v :: v in c && v >= x
  }

  /** The signature of a 1..N grid fragment (bot.py lines 125-128). */
  predicate LooksLikeGrid(c: set<int>) {
    c != {} && IsMinimum(c, 1) && MaxAtLeast(c, 10) && |c| >= 8
  }

  /** The false-positive filter (bot.py lines 116-136). */
  function SuppressFalsePositives(c: set<int>): (r: set<int>)
    ensures r <= c
    ensures |r| <= MaxBright
  {
    if |c| > MaxBright then {}
    else if LooksLikeGrid(c) then {}
    else c
  }

  /** The whole detector. `parsed` is the element list of the markup, or
      `None` when parsing or walking it raised: the `except` branch of bot.py
      lines 138-140 then returns the empty set. */
  function Detect(markup: Option<string>, parsed: Option<seq<Element>>, hits: set<int>): (r: set<int>)
    ensures forall v :: v in r ==> IsKenoNumber(v)
    ensures |r| <= MaxBright
    ensures !IsTruthy(markup) || parsed.None? ==> r == {}
    ensures r == {} || (parsed.Some? && r == Candidates(parsed.value, hits))
    ensures IsTruthy(markup) && parsed.Some? ==>
      var c := Candidates(parsed.value, hits);
      (r == c <==> c == {} || (|c| <= MaxBright && !LooksLikeGrid(c)))
  {
    if !IsTruthy(markup) then {}
    else if parsed.None? then {}
    else SuppressFalsePositives(Candidates(parsed.value, hits))
  }

  /** The filter either passes its input through or empties it, and passing
      its output through it again changes nothing. */
  lemma SuppressKeepsOrClears(c: set<int>)
    ensures SuppressFalsePositives(c) == c || SuppressFalsePositives(c) == {}
    ensures SuppressFalsePositives(SuppressFalsePositives(c)) == SuppressFalsePositives(c)
  {
  }

  /** Exactly the small sets that do not look like a grid fragment survive. */
  lemma SuppressExactly(c: set<int>)
    ensures SuppressFalsePositives(c) == c <==> c == {} || (|c| <= MaxBright && !LooksLikeGrid(c))
  {
  }

  /** The numbers 1..n. */
  function FirstNumbers(n: nat): (r: set<int>)
    ensures forall v :: v in r <==> 1 <= v <= n
    ensures |r| == n
  {
    if n == 0 then {} else FirstNumbers(n - 1) + {n}
  }

  /** A run 1, 2, ..., n of the grid with n >= 10 is always discarded:
      by the grid rule up to 15 numbers and by the size rule beyond. */
  lemma GridPrefixSuppressed(n: nat)
    requires n >= 10
    ensures SuppressFalsePositives(FirstNumbers(n)) == {}
  {
  }

  /** Strategies 1 and 2 accept every text that strips to a token of the
      shared pattern. */
  lemma BareNumberExtendsTokens(text: string)
    ensures IsNumeral(Strip(text)) ==> BareNumber(text) == Some(DigitsValue(Strip(text)))
  {
    NumeralIsDecimal(Strip(text));
  }

  /** Strategies 1 and 2 read exactly the texts that strip to some zeros
      followed by a token of the shared pattern, with that token's value. */
  lemma BareNumberExactly(text: string, v: int)
    ensures BareNumber(text) == Some(v) <==>
      var s := Strip(text);
      exists n :: 0 <= n < |s| && (forall i :: 0 <= i < n ==> s[i] == '0') && IsNumeral(s[n..]) && DigitsValue(s[n..]) == v
  {
    var s := Strip(text);
    if BareNumber(text) == Some(v) {
      PaddedNumeral(s);
    }
    if exists n :: 0 <= n < |s| && (forall i :: 0 <= i < n ==> s[i] == '0') && IsNumeral(s[n..]) && DigitsValue(s[n..]) == v {
      var n :| 0 <= n < |s| && (forall i :: 0 <= i < n ==> s[i] == '0') && IsNumeral(s[n..]) && DigitsValue(s[n..]) == v;
      NumeralPadded(s, n);
    }
  }

  /** A digit string valued 1..80 is some zeros followed by a numeral of that value. */
  lemma PaddedNumeral(s: string)
    requires IsDigits(s) && 1 <= DigitsValue(s) <= 80
    ensures var n := LeadingZeros(s);
      n < |s| && IsNumeral(s[n..]) && DigitsValue(s[n..]) == DigitsValue(s)
  {
    var n := LeadingZeros(s);
    ZeroPaddedValue(s, n);
    assert n < |s|;
    var t := s[n..];
    assert IsDigits(t) && t[0] != '0';
    NumeralIsDecimal(t);
  }

  /** Zeros followed by a numeral form a digit string of the numeral's value. */
  lemma NumeralPadded(s: string, n: nat)
    requires n < |s| && (forall i :: 0 <= i < n ==> s[i] == '0') && IsNumeral(s[n..])
    ensures IsDigits(s) && DigitsValue(s) == DigitsValue(s[n..]) && 1 <= DigitsValue(s) <= 80
  {
    var t := s[n..];
    NumeralIsDecimal(t);
    assert forall i :: n <= i < |s| ==> s[i] == t[i - n];
    ZeroPaddedValue(s, n);
  }

  /** ... and more: "07" reads as 7, which the shared pattern rejects. */
  lemma LeadingZeroAccepted()
    ensures BareNumber(" 07\n") == Some(7)
    ensures NumberTokens("07") == {}
  {
    PaddedSevenIsBare();
    LeadingZeroExample();
  }

  lemma PaddedSevenIsBare()
    ensures BareNumber(" 07\n") == Some(7)
  {
    PaddedSevenStrips();
    LeadingZeroValue();
  }

  lemma PaddedSevenStrips()
    ensures Strip(" 07\n") == "07"
  {
    assert !IsSpace('0') && !IsSpace('7') && IsSpace(' ') && IsSpace('\n');
    assert SkipSpace(" 07\n", 0) == 1;
    assert SkipSpaceBack(" 07\n", 1, 4) == 3;
  }

  lemma LeadingZeroValue()
    ensures IsDigits("07") && DigitsValue("07") == 7
  {
  }

  /** An element none of strategies 1-3 looks at: no class names a strong
      indicator or a preview keyword, and the style names no animation. */
  predicate Unmarked(e: Element) {
    && !ClassMentions(e, StrongIndicators)
    && !ClassMentions(e, PreviewContainers)
    && !MentionsAny(e.style, AnimationStyles)
  }

  /** The element of a page with one blinking number. */
  const BlinkingFortyTwo: Element := Element(["number-blink"], "", "", "42")

  /** A lone blinking number amid unmarked elements is reported alone. */
  lemma BlinkingNumberAmidGrid(markup: Option<string>, els: seq<Element>, hits: set<int>, k: nat)
    requires IsTruthy(markup)
    requires k < |els| && els[k] == BlinkingFortyTwo
    requires forall i :: 0 <= i < |els| && i != k ==> Unmarked(els[i])
    requires hits <= {42}
    ensures Detect(markup, Some(els), hits) == {42}
  {
    BlinkingStrongClass(els, k);
    BlinkingUnanimated(els, k);
    BlinkingPreview(els, k);
    OnlyFortyTwo(els, hits);
  }

  lemma OnlyFortyTwo(els: seq<Element>, hits: set<int>)
    requires ByStrongClass(els) == {42}
    requires ByAnimationStyle(els) == {}
    requires ByPreviewContainer(els) <= {42}
    requires hits <= {42}
    ensures Candidates(els, hits) == {42}
    ensures SuppressFalsePositives({42}) == {42}
  {
    RawWithin(hits, {42});
    UnionOfFortyTwo(ByStrongClass(els), ByAnimationStyle(els), ByPreviewContainer(els), ByRawPatterns(hits));
    LoneNumberSurvives(42);
  }

  lemma RawWithin(hits: set<int>, bound: set<int>)
    requires hits <= bound
    ensures ByRawPatterns(hits) <= bound
  {
  }

  lemma UnionOfFortyTwo(a: set<int>, b: set<int>, c: set<int>, d: set<int>)
    requires a == {42} && b == {} && c <= {42} && d <= {42}
    ensures a + b + c + d == {42}
  {
  }

  /** Any single number passes the filter: the grid rule needs at least 8. */
  lemma LoneNumberSurvives(v: int)
    ensures SuppressFalsePositives({v}) == {v}
  {
  }

  lemma BlinkingStrongClass(els: seq<Element>, k: nat)
    requires k < |els| && els[k] == BlinkingFortyTwo
    requires forall i :: 0 <= i < |els| && i != k ==> Unmarked(els[i])
    ensures ByStrongClass(els) == {42}
  {
    BlinkIsStrong();
    FortyTwoIsBare();
    assert ClassMentions(els[k], StrongIndicators) && BareNumber(els[k].text) == Some(42);
    forall v | v in ByStrongClass(els)
      ensures v == 42
    {
      var i :| 0 <= i < |els| && ClassMentions(els[i], StrongIndicators) && BareNumber(els[i].text) == Some(v);
      assert i == k;
    }
  }

  lemma BlinkIsStrong()
    ensures ClassMentions(BlinkingFortyTwo, StrongIndicators)
  {
    LowerOfLowercase("number-blink");
    assert "blink" <= Lower("number-blink")[7..];
    assert Contains(Lower("number-blink"), "blink");
    assert "blink" in StrongIndicators;
    assert MentionsAny("number-blink", StrongIndicators);
  }

  lemma FortyTwoIsBare()
    ensures BareNumber("42") == Some(42)
  {
    assert !IsSpace('4') && !IsSpace('2');
    StripUnpadded("42");
    assert IsDigits("42");
    assert DigitsValue("42") == 42 by {
      assert "42"[..1] == "4" && "4"[..0] == [];
    }
  }

  lemma BlinkingUnanimated(els: seq<Element>, k: nat)
    requires k < |els| && els[k] == BlinkingFortyTwo
    requires forall i :: 0 <= i < |els| && i != k ==> Unmarked(els[i])
    ensures ByAnimationStyle(els) == {}
  {
  }

  lemma BlinkingPreview(els: seq<Element>, k: nat)
    requires k < |els| && els[k] == BlinkingFortyTwo
    requires forall i :: 0 <= i < |els| && i != k ==> Unmarked(els[i])
    ensures ByPreviewContainer(els) <= {42}
  {
  }

  /** A page whose elements are all unmarked and that has no raw-pattern hits
      yields nothing. */
  lemma UnmarkedPageYieldsNothing(markup: Option<string>, els: seq<Element>)
    requires forall i :: 0 <= i < |els| ==> Unmarked(els[i])
    ensures Detect(markup, Some(els), {}) == {}
  {
  }

  lemma UnmarkedStrategies(els: seq<Element>)
    requires forall i :: 0 <= i < |els| ==> Unmarked(els[i])
    ensures ByStrongClass(els) == {} && ByAnimationStyle(els) == {} && ByPreviewContainer(els) == {}
  {
  }
}
