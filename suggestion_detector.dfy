/**
 * The suggested-post classifier, in two tiers over the post's header: a clickable "Follow"
 * action first, then a "Suggested for you" text leaf.
 */
module SuggestionDetection {
  import opened Wrappers
  import opened Strings
  import opened Dom
  import opened DomUtils
  import opened Keywords

  /** `hasFollowButton(header)`: some clickable in the header reads exactly a follow keyword. */
  function HasFollowButton(header: Node): (r: bool)
    ensures r <==> SomeClickableHasKeyword(header, FOLLOW_BUTTON_KEYWORDS)
  {
    FirstClickableMatch(DescendantElements(header), FOLLOW_BUTTON_KEYWORDS).Some?
  }

  /** `hasSuggestedText(header)`: some text leaf in the header reads exactly a suggested-text keyword. */
  function HasSuggestedText(header: Node): (r: bool)
    ensures r <==> SomeLeafIsKeyword(header, SUGGESTED_TEXT_KEYWORDS)
  {
    FirstTextMatch(TextLeaves(header), SUGGESTED_TEXT_KEYWORDS).Some?
  }

  /** `SuggestionDetector.detect(article)`: a header with a Follow button, or else with suggested text. */
  function Detect(article: Node): (r: bool)
    ensures r <==> FirstElementChild(article).Some?
                   && (SomeClickableHasKeyword(FirstElementChild(article).value, FOLLOW_BUTTON_KEYWORDS)
                       || SomeLeafIsKeyword(FirstElementChild(article).value, SUGGESTED_TEXT_KEYWORDS))
  {
    match FirstElementChild(article)
    case None => false
    case Some(header) => HasFollowButton(header) || HasSuggestedText(header)
  }

  /** An article without an element child is never a recommendation. */
  lemma NoHeaderNoRecommendation(article: Node)
    requires FirstElementChild(article).None?
    ensures !Detect(article)
  {
  }

  /** The first tier decides alone: a Follow button in the header makes the post a recommendation. */
  lemma FollowButtonSuffices(article: Node)
    requires FirstElementChild(article).Some? && HasFollowButton(FirstElementChild(article).value)
    ensures Detect(article)
  {
  }

  /** Without a Follow button, the post is a recommendation exactly when the header has suggested text. */
  lemma TextFallback(article: Node)
    requires FirstElementChild(article).Some? && !HasFollowButton(FirstElementChild(article).value)
    ensures Detect(article) <==> SomeLeafIsKeyword(FirstElementChild(article).value, SUGGESTED_TEXT_KEYWORDS)
  {
  }

  /** A header holding a clickable "Follow" is a recommendation. */
  lemma FollowButtonDetected()
    ensures var button := Element(PageNode(2), "DIV", map["role" := "button"], {}, false, false, [Text("Follow")]);
      var header := Element(PageNode(1), "DIV", map[], {}, false, false, [Text("bob"), button]);
      Detect(Element(PageNode(0), "ARTICLE", map[], {}, false, false, [header]))
  {
    var button := Element(PageNode(2), "DIV", map["role" := "button"], {}, false, false, [Text("Follow")]);
    var header := Element(PageNode(1), "DIV", map[], {}, false, false, [Text("bob"), button]);
    assert DescendantElements(button) == [];
    assert [Text("bob"), button][1..] == [button];
    assert [button][1..] == [];
    assert DescendantElementsSeq([button]) == [button] + DescendantElements(button) + DescendantElementsSeq([]);
    assert DescendantElementsSeq([button]) == [button];
    assert DescendantElements(header) == DescendantElementsSeq([button]);
    assert TextContent(button) == "Follow";
    assert Trim("Follow") == "Follow";
    assert IsClickable(button) && HasKeywordText(button, FOLLOW_BUTTON_KEYWORDS);
  }

  /** "Suggested for you" inside a longer sentence is not the label. */
  lemma EmbeddedSuggestedTextIgnored()
    ensures var header := Element(PageNode(1), "DIV", map[], {}, false, false, [Text("Suggested for you today")]);
      !Detect(Element(PageNode(0), "ARTICLE", map[], {}, false, false, [header]))
  {
    var header := Element(PageNode(1), "DIV", map[], {}, false, false, [Text("Suggested for you today")]);
    assert Trim("Suggested for you today") == "Suggested for you today";
    assert DescendantElements(header) == [];
  }
}
