/** `KenoCloudMonitor.detect_bright_numbers` of app.py (lines 45-99): the
    whole-page number-token rule, then the indicator-container rule and its
    size cap. */
module AppDetect {
  import opened Wrappers
  import opened Text
  import opened Tokens
  import opened Markup

  /** The indicator substrings of app.py lines 67-70. */
  const PreviewIndicators: seq<string> :=
    ["preview", "next", "upcoming", "live", "current", "highlight", "keno", "game", "draw", "result"]
  /** At most this many distinct tokens on the page are read as the highlight. */
  const MaxPageNumbers: nat := 15
  /** More numbers than this from the containers are read as the main grid. */
  const MaxContainerNumbers: nat := 20

  /** `' '.join(element.get('class', [])) + ' ' + element.get('id', '')`. */
  function ContainerInfo(e: Element): string {
    Join(e.classes, " ") + " " + e.id
  }

  /** The lower-cased container info contains one of the indicators. */
  predicate IsIndicatorContainer(e: Element) {
    MentionsAny(ContainerInfo(e), PreviewIndicators)
  }

  /** Every value of every token in the whole markup (app.py lines 57-63). */
  function PageNumbers(markup: string): (r: set<int>)
    ensures r == TokenValues(markup)
  {
    var all := FindNumbers(markup);
    assert (set t | t in all :: DigitsValue(t)) == Values(set t | t in all);
    set t | t in all :: DigitsValue(t)
  }

  /** The values of the tokens in the stripped text of every indicator
      container (app.py lines 73-83). Stripping does not change the tokens
      (`StripKeepsTokens`), so the contract speaks of the text itself. */
  function ContainerNumbers(els: seq<Element>): (r: set<int>)
    ensures forall v :: v in r ==> IsKenoNumber(v)
    ensures forall v :: v in r <==>
      exists i :: 0 <= i < |els| && IsIndicatorContainer(els[i]) && v in TokenValues(els[i].text)
  {
    var r := set i, t | 0 <= i < |els| && IsIndicatorContainer(els[i]) && t in FindNumbers(Strip(els[i].text))
      :: DigitsValue(t);
    forall i | 0 <= i < |els|
      ensures NumberTokens(Strip(els[i].text)) == NumberTokens(els[i].text)
    {
      StripKeepsTokens(els[i].text);
    }
    forall v | v in r
      ensures IsKenoNumber(v)
    {
      var i, t :| 0 <= i < |els| && t in FindNumbers(Strip(els[i].text)) && v == DigitsValue(t);
      var toks := FindNumbers(Strip(els[i].text));
      assert t in toks;
      NumeralValueInRange(t);
    }
    r
  }

  /** The whole detector. `parsed` is the element list of the markup, or
      `None` when parsing or walking it raised: the `except` branch of app.py
      lines 97-99 then returns the empty set. The markup is parsed (line 53)
      before either rule runs. */
  function Detect(markup: Option<string>, parsed: Option<seq<Element>>): (r: set<int>)
    ensures forall v :: v in r ==> IsKenoNumber(v)
    ensures |r| <= MaxContainerNumbers
    ensures !IsTruthy(markup) || parsed.None? ==> r == {}
    ensures IsTruthy(markup) && parsed.Some? && 1 <= |TokenValues(markup.value)| <= MaxPageNumbers ==>
      r == TokenValues(markup.value)
    ensures IsTruthy(markup) && parsed.Some? && !(1 <= |TokenValues(markup.value)| <= MaxPageNumbers) ==>
      (r == {} || r == ContainerNumbers(parsed.value))
    ensures IsTruthy(markup) && parsed.Some? && !(1 <= |TokenValues(markup.value)| <= MaxPageNumbers) ==>
      (|ContainerNumbers(parsed.value)| <= MaxContainerNumbers ==> r == ContainerNumbers(parsed.value))
  {
    if !IsTruthy(markup) || parsed.None? then {}
    else
      var all := FindNumbers(markup.value);
      var distinct := set t | t in all;
      ValuesCardinality(distinct);
      TokenValuesInRange(markup.value);
      if 1 <= |distinct| <= MaxPageNumbers then
        PageNumbers(markup.value)
      else
        var found := ContainerNumbers(parsed.value);
        if |found| > MaxContainerNumbers then {} else found
  }

  /** The container rule looks at class values and the id one by one: joining
      them with spaces lets no indicator match across two of them. */
  lemma IndicatorInClassOrId(e: Element)
    ensures IsIndicatorContainer(e) <==> ClassMentions(e, PreviewIndicators) || MentionsAny(e.id, PreviewIndicators)
  {
    var joined := Join(e.classes, " ");
    LowerAppend(joined + " ", e.id);
    LowerAppend(joined, " ");
    assert Lower(" ") == [' '];
    assert Lower(ContainerInfo(e)) == Lower(joined) + [' '] + Lower(e.id);
    forall k | k in PreviewIndicators
      ensures Contains(Lower(ContainerInfo(e)), k)
        <==> (exists c :: c in e.classes && Contains(Lower(c), k)) || Contains(Lower(e.id), k)
    {
      ContainsAcrossSeparator(Lower(joined), ' ', Lower(e.id), k);
      ContainsInJoin(e.classes, k);
    }
  }
}
