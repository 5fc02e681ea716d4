/** The sponsored-post classifier: a sponsored label as a text leaf of the post's header. */
module AdDetection {
  import opened Wrappers
  import opened Strings
  import opened Dom
  import opened DomUtils
  import opened Keywords

  /**
   * `AdDetector.detect(article)`: the header is the article's first element child; the
   * post is an ad exactly when some text leaf of the header trims to a sponsored keyword.
   */
  function Detect(article: Node): (r: bool)
    ensures r <==> FirstElementChild(article).Some?
                   && SomeLeafIsKeyword(FirstElementChild(article).value, SPONSORED_KEYWORDS)
  {
    match FirstElementChild(article)
    case None => false
    case Some(header) => FirstTextMatch(TextLeaves(header), SPONSORED_KEYWORDS).Some?
  }

  /** An article without an element child is never an ad. */
  lemma NoHeaderNoAd(article: Node)
    requires FirstElementChild(article).None?
    ensures !Detect(article)
  {
  }

  /** Only the header counts: whatever follows it (the image, the caption) cannot make a post an ad. */
  lemma OnlyHeaderSearched(header: Node, rest: seq<Node>, id: NodeId, attrs: map<string, string>)
    requires header.Element?
    ensures var article := Element(id, "ARTICLE", attrs, {}, false, false, [header] + rest);
      Detect(article) == Detect(Element(id, "ARTICLE", attrs, {}, false, false, [header]))
  {
  }

  /** A "Sponsored" label in the caption alone is not detected. */
  lemma CaptionLabelIgnored()
    ensures var header := Element(PageNode(1), "HEADER", map[], {}, false, false, [Text("alice")]);
      var caption := Element(PageNode(2), "DIV", map[], {}, false, false, [Text("Sponsored")]);
      !Detect(Element(PageNode(0), "ARTICLE", map[], {}, false, false, [header, caption]))
  {
    assert Trim("alice") == "alice";
  }

  /** A header whose only text is "Sponsored" marks the post as an ad. */
  lemma SponsoredHeaderDetected()
    ensures var header := Element(PageNode(1), "DIV", map[], {}, false, false, [Text("Sponsored")]);
      Detect(Element(PageNode(0), "ARTICLE", map[], {}, false, false, [header]))
  {
    assert Trim("Sponsored") == "Sponsored";
  }
}
