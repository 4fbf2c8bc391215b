/** The parsed page as the detectors see it. HTML parsing itself is not part of
    this model: a page arrives as its raw markup (or a failed fetch) together
    with the flat list of its elements. */
module Markup {
  import opened Wrappers
  import opened Text

  /** One element of the parse: its class values (`element.get('class', [])`),
      its `id` and inline `style` attributes (empty when absent) and
      `element.get_text()`, the text of all its descendants. */
  datatype Element = Element(classes: seq<string>, id: string, style: string, text: string)

  /** The Keno number space. */
  predicate IsKenoNumber(v: int) {
    1 <= v <= 80
  }

  /** Case-insensitive search for any of the (lower-case) keywords in `s`. */
  predicate MentionsAny(s: string, keywords: seq<string>) {
    exists k :: k in keywords && Contains(Lower(s), k)
  }

  /** `find_all(class_=re.compile(keyword, re.IGNORECASE))` selects the element:
      one of its class values contains a keyword, ignoring case. */
  predicate ClassMentions(e: Element, keywords: seq<string>) {
    exists c :: c in e.classes && MentionsAny(c, keywords)
  }

  /** Lower-casing leaves a string without capitals unchanged. */
  lemma LowerOfLowercase(s: string)
    requires forall i :: 0 <= i < |s| ==> !('A' <= s[i] <= 'Z')
    ensures Lower(s) == s
  {
  }
}
