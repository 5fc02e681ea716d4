/**
 * The state of the current content script's `InstagramBlocker` and the transitions its
 * handlers perform, as pure functions: processing one article (dedup, ads before
 * recommendations), collapsing a blocked article behind a placeholder, scanning the feed,
 * the feed observer's delivery of added nodes, finding the feed, and the message handler.
 * The class in `Content` performs the same transitions in place and is proved against these.
 */
module ContentModel {
  import opened Wrappers
  import opened Strings
  import opened Dom
  import opened DomUtils
  import opened Keywords
  import opened Types
  import opened Chrome
  import AdDetection
  import SuggestionDetection

  /** The controller's own list of sponsored labels. */
  const SponsoredKeywords: seq<string> := [
    "Sponsored", "광고", "Publicidad", "Gesponsert", "Sponsorisé", "Patrocinado", "広告", "贊助", "赞助"
  ]

  /** The controller's own list of recommendation banners. */
  const RecommendedKeywords: seq<string> := [
    "Suggested for you", "Recommended for you", "회원님을 위한 추천", "Sugerido para ti",
    "Empfohlen für dich", "Suggéré pour vous"
  ]

  /** The controller's lists are the detectors' sponsored and suggested-text tables, entry for entry. */
  lemma ControllerKeywordsAreTables()
    ensures SponsoredKeywords == SPONSORED_KEYWORDS
    ensures RecommendedKeywords == SUGGESTED_TEXT_KEYWORDS
  {
  }

  // ---------------------------------------------------------------- classification

  /** `isSponsored`: some text leaf of the header (the first element child) trims to a sponsored label. */
  function IsSponsored(article: Node): (r: bool)
    ensures r <==> FirstElementChild(article).Some?
                   && SomeLeafIsKeyword(FirstElementChild(article).value, SponsoredKeywords)
  {
    match FirstElementChild(article)
    case None => false
    case Some(header) => FirstTextMatch(TextLeaves(header), SponsoredKeywords).Some?
  }

  /** `isRecommended`: some text leaf of the header trims to a recommendation banner. */
  function IsRecommended(article: Node): (r: bool)
    ensures r <==> FirstElementChild(article).Some?
                   && SomeLeafIsKeyword(FirstElementChild(article).value, RecommendedKeywords)
  {
    match FirstElementChild(article)
    case None => false
    case Some(header) => FirstTextMatch(TextLeaves(header), RecommendedKeywords).Some?
  }

  /** The controller's sponsored check decides exactly as the ad detector does. */
  lemma SponsoredIsAdDetector(article: Node)
    ensures IsSponsored(article) == AdDetection.Detect(article)
  {
    ControllerKeywordsAreTables();
  }

  /**
   * The controller's recommendation check is the suggestion detector's text tier alone:
   * whatever it flags the detector flags too.
   */
  lemma RecommendedImpliesSuggestion(article: Node)
    ensures IsRecommended(article) ==> SuggestionDetection.Detect(article)
    ensures IsRecommended(article) <==>
      FirstElementChild(article).Some? && SuggestionDetection.HasSuggestedText(FirstElementChild(article).value)
  {
    ControllerKeywordsAreTables();
  }

  /** An article whose header holds nothing but a `Follow` button. */
  function FollowOnlyArticle(): Node {
    var button := Element(PageNode(2), "BUTTON", map[], {}, false, false, [Text("Follow")]);
    var header := Element(PageNode(1), "HEADER", map[], {}, false, false, [button]);
    Element(PageNode(0), "ARTICLE", map[], {}, false, false, [header])
  }

  /** The converse fails: a header whose only signal is a Follow button is a suggestion to the detector but not to the controller. */
  lemma FollowButtonAloneNotRecommended()
    ensures SuggestionDetection.Detect(FollowOnlyArticle())
    ensures !IsRecommended(FollowOnlyArticle())
  {
    FollowOnlyIsSuggestion();
    FollowOnlyNotRecommended();
  }

  lemma FollowOnlyIsSuggestion()
    ensures SuggestionDetection.Detect(FollowOnlyArticle())
  {
    var header := FollowOnlyArticle().children[0];
    var button := header.children[0];
    assert DescendantElementsSeq([button]) == [button] + DescendantElements(button) + DescendantElementsSeq([]);
    assert DescendantElements(header)[0] == button;
    assert TextContent(button) == "Follow";
    assert Trim("Follow") == "Follow";
    assert FOLLOW_BUTTON_KEYWORDS[0] == "Follow";
  }

  lemma FollowOnlyNotRecommended()
    ensures !IsRecommended(FollowOnlyArticle())
  {
    var header := FollowOnlyArticle().children[0];
    var button := header.children[0];
    assert TextLeavesSeq([Text("Follow")]) == ["Follow"] + TextLeavesSeq([]);
    assert TextLeavesSeq([button]) == TextLeaves(button) + TextLeavesSeq([]);
    assert TextLeaves(header) == ["Follow"];
  }

  // ---------------------------------------------------------------- hiding

  const PlaceholderClass := "ig-blocker-placeholder"

  function PlaceholderLabel(t: BlockedType): string {
    match t
    case Ad => "\U{1F6AB} 광고 차단됨"
    case Recommendation => "\U{1F6AB} 추천 차단됨"
  }

  /**
   * The `div` created for a blocked post: the placeholder class, a flex inline style and the
   * label as its only text. `serial` tells apart the nodes the controller creates.
   */
  function Placeholder(serial: nat, t: BlockedType): (r: Node)
    ensures r.Element? && r.id.Created? && PlaceholderClass in r.classList
    ensures TextContent(r) == PlaceholderLabel(t)
  {
    var text := [Text(PlaceholderLabel(t))];
    assert TextContentSeq(text) == PlaceholderLabel(t) + TextContentSeq([]);
    Element(Created(serial), "DIV", map[], {PlaceholderClass}, false, true, text)
  }

  /** `child.style.display = 'none'` on an element child; text children are not in `el.children` and stay as they are. */
  function HideChild(c: Node): (r: Node)
    ensures r.Element? <==> c.Element?
    ensures r.Element? ==> r.displayNone && r.id == c.id && r.tagName == c.tagName && r.children == c.children
    ensures r.Text? ==> r == c
    ensures TextContent(r) == TextContent(c)
  {
    if c.Element? then c.(displayNone := true) else c
  }

  function HideChildren(cs: seq<Node>): (r: seq<Node>)
    ensures |r| == |cs|
    ensures forall i :: 0 <= i < |cs| ==> r[i] == HideChild(cs[i])
  {
    if cs == [] then [] else [HideChild(cs[0])] + HideChildren(cs[1..])
  }

  /** Hiding the children loses no text: the subtrees are all still there. */
  lemma {:induction false} HideChildrenKeepsText(cs: seq<Node>)
    ensures TextContentSeq(HideChildren(cs)) == TextContentSeq(cs)
  {
    if cs != [] {
      HideChildrenKeepsText(cs[1..]);
      var r := HideChildren(cs);
      assert r[0] == HideChild(cs[0]) && r[1..] == HideChildren(cs[1..]);
    }
  }

  /**
   * `hideArticle`'s change to the article: the two `data-blocked-*` attributes, every original
   * child kept and hidden, and the placeholder inserted before the first child node.
   */
  function Collapse(el: Node, t: BlockedType, serial: nat): Node
    requires el.Element?
  {
    el.(attributes := el.attributes["data-blocked-by" := "ig-blocker"]["data-blocked-type" := BlockedTypeName(t)],
        children := [Placeholder(serial, t)] + HideChildren(el.children))
  }

  /** The collapsed article is the same element with the placeholder first and every original child, in order, hidden after it. */
  lemma CollapseShape(el: Node, t: BlockedType, serial: nat)
    requires el.Element?
    ensures var c := Collapse(el, t, serial);
      && c.Element? && c.id == el.id && c.tagName == el.tagName && c.classList == el.classList
      && |c.children| == |el.children| + 1
      && c.children[0] == Placeholder(serial, t)
      && (forall i :: 0 <= i < |el.children| ==> c.children[i + 1] == HideChild(el.children[i]))
      && (forall i :: 1 <= i < |c.children| && c.children[i].Element? ==> c.children[i].displayNone)
  {
    var c := Collapse(el, t, serial);
    forall i | 1 <= i < |c.children| && c.children[i].Element?
      ensures c.children[i].displayNone
    {
      assert c.children[i] == HideChild(el.children[i - 1]);
    }
  }

  /** The collapsed article carries both `data-blocked-*` attributes, the type reading back as `t`, and keeps every other attribute. */
  lemma CollapseAttributes(el: Node, t: BlockedType, serial: nat)
    requires el.Element?
    ensures var c := Collapse(el, t, serial);
      && c.Element?
      && c.attributes["data-blocked-by"] == "ig-blocker"
      && ParseBlockedType(c.attributes["data-blocked-type"]) == Some(t)
      && (forall k :: k in el.attributes && k != "data-blocked-by" && k != "data-blocked-type" ==>
            k in c.attributes && c.attributes[k] == el.attributes[k])
  {
    BlockedTypeNameRoundTrip(t, "");
  }

  /** Nothing is removed from the article: its text is the label followed by all the text it had. */
  lemma CollapseKeepsText(el: Node, t: BlockedType, serial: nat)
    requires el.Element?
    ensures TextContent(Collapse(el, t, serial)) == PlaceholderLabel(t) + TextContent(el)
  {
    var cs := [Placeholder(serial, t)] + HideChildren(el.children);
    assert cs[0] == Placeholder(serial, t) && cs[1..] == HideChildren(el.children);
    HideChildrenKeepsText(el.children);
  }

  /** Hiding the children keeps every identity inside them and adds none. */
  lemma {:induction false} HideChildrenContains(cs: seq<Node>, j: NodeId)
    ensures ContainsIdSeq(HideChildren(cs), j) <==> ContainsIdSeq(cs, j)
  {
    if cs != [] {
      HideChildrenContains(cs[1..], j);
      var r := HideChildren(cs);
      assert r[0] == HideChild(cs[0]) && r[1..] == HideChildren(cs[1..]);
    }
  }

  /** The collapsed article holds the identities the article held, and the placeholder's. */
  lemma CollapseContains(el: Node, t: BlockedType, serial: nat, j: NodeId)
    requires el.Element?
    ensures ContainsId(Collapse(el, t, serial), j) <==> ContainsId(el, j) || j == Created(serial)
  {
    var p := Placeholder(serial, t);
    var cs := [p] + HideChildren(el.children);
    assert cs[0] == p && cs[1..] == HideChildren(el.children);
    assert p.id == Created(serial) && p.children == [Text(PlaceholderLabel(t))];
    assert !ContainsId(p.children[0], j) && !ContainsIdSeq(p.children[1..], j);
    assert !ContainsIdSeq(p.children, j);
    assert ContainsId(p, j) <==> j == Created(serial);
    assert ContainsIdSeq(cs, j) <==> ContainsId(p, j) || ContainsIdSeq(HideChildren(el.children), j);
    HideChildrenContains(el.children, j);
  }

  // ---------------------------------------------------------------- state

  /**
   * The controller's fields, the page it works on, and the calls it has made so far.
   * `feedObserverActive` says whether `feedObserver` is set; `waitingForFeed` whether the
   * body observer that waits for the feed is still connected.
   */
  datatype State = State(
    enabled: bool,
    blockAds: bool,
    blockRecommendations: bool,
    blockedCount: BlockedCount,
    processedPosts: set<NodeId>,
    feedContainer: Option<NodeId>,
    feedObserverActive: bool,
    waitingForFeed: bool,
    page: Node,
    effects: seq<Effect>)

  /** The field initialisers: everything on, nothing counted, nothing processed, no feed yet. */
  function InitialState(page: Node): State {
    State(true, true, true, BlockedCount(0, 0), {}, None, false, false, page, [])
  }

  function SettingsOf(s: State): Settings {
    Settings(s.enabled, s.blockAds, s.blockRecommendations)
  }

  /**
   * `hideArticle(article, t)`: the article as it now is in the page is collapsed (an article
   * no longer in the page changes nothing visible), the counter for `t` goes up, and the
   * new count is posted to the background script.
   */
  function Hide(s: State, article: Node, t: BlockedType): State
    requires article.Element?
  {
    var serial := s.blockedCount.Total();
    var page := match FindById(s.page, article.id)
                case Some(live) => Replace(s.page, article.id, Collapse(live, t, serial))
                case None => s.page;
    var count := Bump(s.blockedCount, t);
    s.(page := page, blockedCount := count, effects := s.effects + [SendMessage(PostBlocked(t, count))])
  }

  /**
   * What hiding does: exactly one counter goes up by one, one message carrying the new count
   * is sent, the article in the page becomes its collapsed form, and the settings, the
   * processed set and the feed are untouched.
   */
  lemma HideFacts(s: State, article: Node, t: BlockedType)
    requires article.Element?
    ensures var r := Hide(s, article, t);
      && r.blockedCount == Bump(s.blockedCount, t)
      && r.effects == s.effects + [SendMessage(PostBlocked(t, r.blockedCount))]
      && SettingsOf(r) == SettingsOf(s) && r.processedPosts == s.processedPosts
      && r.feedContainer == s.feedContainer && r.feedObserverActive == s.feedObserverActive
      && r.waitingForFeed == s.waitingForFeed
      && (ContainsId(s.page, article.id) ==>
            FindById(s.page, article.id).Some?
            && FindById(r.page, article.id)
               == Some(Collapse(FindById(s.page, article.id).value, t, s.blockedCount.Total())))
      && (!ContainsId(s.page, article.id) ==> r.page == s.page)
  {
    FindByIdContains(s.page, article.id);
    if ContainsId(s.page, article.id) {
      var live := FindById(s.page, article.id).value;
      ReplaceThenFind(s.page, article.id, Collapse(live, t, s.blockedCount.Total()));
    }
  }

  /**
   * Hiding touches the page only at the article: the lookup of any identity `j` that is not
   * the new placeholder's, not inside the article, and not an ancestor of the article is as it was.
   */
  lemma HideLeavesRestOfPage(s: State, article: Node, t: BlockedType, j: NodeId)
    requires article.Element?
    requires j != Created(s.blockedCount.Total()) && !Encloses(s.page, article.id, j)
    requires FindById(s.page, j).Some? ==> !ContainsId(FindById(s.page, j).value, article.id)
    ensures FindById(Hide(s, article, t).page, j) == FindById(s.page, j)
  {
    var serial := s.blockedCount.Total();
    if FindById(s.page, article.id).Some? {
      var live := FindById(s.page, article.id).value;
      FoundDoesNotEnclose(s.page, article.id, j);
      CollapseContains(live, t, serial, j);
      ReplaceKeepsOtherLookups(s.page, article.id, Collapse(live, t, serial), j);
    }
  }

  /** The category `processArticle` hides the article as, if any: ads first, each gated by its setting. */
  function Classify(s: State, article: Node): (r: Option<BlockedType>)
    ensures r == Some(Ad) <==> s.blockAds && IsSponsored(article)
    ensures r == Some(Recommendation) <==>
      !(s.blockAds && IsSponsored(article)) && s.blockRecommendations && IsRecommended(article)
  {
    if s.blockAds && IsSponsored(article) then Some(Ad)
    else if s.blockRecommendations && IsRecommended(article) then Some(Recommendation)
    else None
  }

  /** `processArticle(article)`. */
  function Process(s: State, article: Node): State
    requires article.Element?
  {
    if article.id in s.processedPosts then s
    else
      var marked := s.(processedPosts := s.processedPosts + {article.id});
      match Classify(s, article)
      case None => marked
      case Some(t) => Hide(marked, article, t)
  }

  /**
   * One call of `processArticle`: a processed article is skipped outright; otherwise it is
   * marked whether or not it is hidden, and it is hidden at most once, under the category
   * `Classify` picks, with one counter bumped and one message sent.
   */
  lemma ProcessFacts(s: State, article: Node)
    requires article.Element?
    ensures var r := Process(s, article);
      && (article.id in s.processedPosts ==> r == s)
      && r.processedPosts == s.processedPosts + {article.id}
      && SettingsOf(r) == SettingsOf(s)
      && r.feedContainer == s.feedContainer && r.feedObserverActive == s.feedObserverActive
      && r.waitingForFeed == s.waitingForFeed
      && (article.id !in s.processedPosts && Classify(s, article).Some? ==>
            r.blockedCount == Bump(s.blockedCount, Classify(s, article).value)
            && r.effects == s.effects + [SendMessage(PostBlocked(Classify(s, article).value, r.blockedCount))])
      && (article.id in s.processedPosts || Classify(s, article).None? ==>
            r.blockedCount == s.blockedCount && r.effects == s.effects && r.page == s.page)
  {
    if article.id !in s.processedPosts && Classify(s, article).Some? {
      HideFacts(s.(processedPosts := s.processedPosts + {article.id}), article, Classify(s, article).value);
    }
  }

  /** A post that is both sponsored and a suggestion is hidden as an ad when ads are blocked. */
  lemma AdsTakePriority(s: State, article: Node)
    requires article.Element? && article.id !in s.processedPosts
    requires s.blockAds && IsSponsored(article) && IsRecommended(article)
    ensures Process(s, article).blockedCount.ads == s.blockedCount.ads + 1
    ensures Process(s, article).blockedCount.recommendations == s.blockedCount.recommendations
  {
    ProcessFacts(s, article);
  }

  // ---------------------------------------------------------------- batches

  /** `processArticle` on each of `xs` in order. */
  function ProcessAll(s: State, xs: seq<Node>): State
    requires AllElements(xs)
    decreases |xs|
  {
    if xs == [] then s else Process(ProcessAll(s, xs[..|xs| - 1]), xs[|xs| - 1])
  }

  /** The effects appended after `old_` are all `POST_BLOCKED` messages. */
  predicate OnlyPostsAfter(old_: seq<Effect>, now: seq<Effect>) {
    && |old_| <= |now| && now[..|old_|] == old_
    && forall k :: |old_| <= k < |now| ==> now[k].SendMessage? && now[k].message.PostBlocked?
  }

  /** `r` has the settings and the feed bookkeeping of `s`. */
  predicate KeepsConfig(s: State, r: State) {
    && SettingsOf(r) == SettingsOf(s)
    && r.feedContainer == s.feedContainer && r.feedObserverActive == s.feedObserverActive
    && r.waitingForFeed == s.waitingForFeed
  }

  /**
   * `r` can follow `s` by processing articles: nothing is forgotten, no counter goes down,
   * there are no more new hides than newly processed posts, and the only new calls are
   * one `POST_BLOCKED` per hide.
   */
  predicate Progress(s: State, r: State) {
    && s.processedPosts <= r.processedPosts
    && r.blockedCount.ads >= s.blockedCount.ads
    && r.blockedCount.recommendations >= s.blockedCount.recommendations
    && r.blockedCount.Total() + |s.processedPosts| <= s.blockedCount.Total() + |r.processedPosts|
    && OnlyPostsAfter(s.effects, r.effects)
    && |r.effects| == |s.effects| + (r.blockedCount.Total() - s.blockedCount.Total())
  }

  lemma ProgressTransitive(a: State, b: State, c: State)
    requires Progress(a, b) && Progress(b, c)
    ensures Progress(a, c)
  {
    assert c.effects[..|a.effects|] == b.effects[..|b.effects|][..|a.effects|];
    forall k | |a.effects| <= k < |c.effects|
      ensures c.effects[k].SendMessage? && c.effects[k].message.PostBlocked?
    {
      if k < |b.effects| {
        assert c.effects[k] == c.effects[..|b.effects|][k];
      }
    }
  }

  lemma ProcessProgress(s: State, article: Node)
    requires article.Element?
    ensures Progress(s, Process(s, article)) && KeepsConfig(s, Process(s, article))
  {
    ProcessFacts(s, article);
    var r := Process(s, article);
    if article.id !in s.processedPosts {
      assert |r.processedPosts| == |s.processedPosts| + 1;
      if Classify(s, article).Some? {
        assert r.effects[..|s.effects|] == s.effects;
      }
    }
  }

  /**
   * A batch marks every article in it, changes no setting and no feed field, never lowers a
   * counter, hides at most one post per newly processed article, and sends exactly one
   * `POST_BLOCKED` per hide and nothing else.
   */
  lemma {:induction false} ProcessAllFacts(s: State, xs: seq<Node>)
    requires AllElements(xs)
    ensures KeepsConfig(s, ProcessAll(s, xs))
    ensures Progress(s, ProcessAll(s, xs))
    decreases |xs|
  {
    if xs != [] {
      var init, x := xs[..|xs| - 1], xs[|xs| - 1];
      assert forall y :: y in init ==> y in xs;
      ProcessAllFacts(s, init);
      var p := ProcessAll(s, init);
      ProcessFacts(p, x);
      ProcessProgress(p, x);
      ProgressTransitive(s, p, Process(p, x));
    }
  }

  /** Processing one more article extends the batch by that article. */
  lemma ProcessAllSnoc(s: State, xs: seq<Node>, x: Node)
    requires AllElements(xs) && x.Element?
    ensures AllElements(xs + [x])
    ensures ProcessAll(s, xs + [x]) == Process(ProcessAll(s, xs), x)
  {
    assert (xs + [x])[..|xs|] == xs;
  }

  lemma ProcessMarks(s: State, article: Node)
    requires article.Element?
    ensures Process(s, article).processedPosts == s.processedPosts + {article.id}
  {
    ProcessFacts(s, article);
  }

  /** After a batch, the processed posts are those before it and every article in it. */
  lemma {:induction false} ProcessAllMarks(s: State, xs: seq<Node>)
    requires AllElements(xs)
    ensures ProcessAll(s, xs).processedPosts == s.processedPosts + Ids(xs)
    decreases |xs|
  {
    if xs != [] {
      var init, x := xs[..|xs| - 1], xs[|xs| - 1];
      assert forall y :: y in init ==> y in xs;
      ProcessAllMarks(s, init);
      ProcessMarks(ProcessAll(s, init), x);
      assert xs == init + [x];
      IdsSnoc(init, x);
    }
  }

  /** A batch whose articles were all processed already changes nothing at all. */
  lemma {:induction false} ProcessAllSkipsProcessed(s: State, xs: seq<Node>)
    requires AllElements(xs) && Ids(xs) <= s.processedPosts
    ensures ProcessAll(s, xs) == s
    decreases |xs|
  {
    if xs != [] {
      var init, x := xs[..|xs| - 1], xs[|xs| - 1];
      assert forall y :: y in init ==> y in xs;
      assert Ids(init) <= Ids(xs);
      ProcessAllSkipsProcessed(s, init);
      assert x in xs;
    }
  }

  /** Processing the same batch twice is processing it once: every article is classified at most once. */
  lemma ProcessAllIdempotent(s: State, xs: seq<Node>)
    requires AllElements(xs)
    ensures ProcessAll(ProcessAll(s, xs), xs) == ProcessAll(s, xs)
  {
    ProcessAllMarks(s, xs);
    ProcessAllSkipsProcessed(ProcessAll(s, xs), xs);
  }

  /** Two batches in a row are one batch of both, in order. */
  lemma {:induction false} ProcessAllAppend(s: State, xs: seq<Node>, ys: seq<Node>)
    requires AllElements(xs) && AllElements(ys)
    ensures AllElements(xs + ys)
    ensures ProcessAll(s, xs + ys) == ProcessAll(ProcessAll(s, xs), ys)
    decreases |ys|
  {
    if ys == [] {
      assert xs + ys == xs;
    } else {
      var init := ys[..|ys| - 1];
      assert forall y :: y in init ==> y in ys;
      ProcessAllAppend(s, xs, init);
      assert (xs + ys)[..|xs + ys| - 1] == xs + init;
      assert (xs + ys)[|xs + ys| - 1] == ys[|ys| - 1];
    }
  }

  // ---------------------------------------------------------------- scanning and observing

  /** `(feedContainer || document).querySelectorAll('article')`, the container taken as it now is in the page. */
  function ArticlesToScan(s: State): (r: seq<Node>)
    ensures forall a :: a in r ==> HasTag(a, "ARTICLE")
  {
    match s.feedContainer
    case None => DescendantsWithTag(s.page, "ARTICLE")
    case Some(id) =>
      match FindById(s.page, id)
      case Some(container) => DescendantsWithTag(container, "ARTICLE")
      case None => []
  }

  /** `scanFeed()`. */
  function Scan(s: State): State {
    if !s.enabled then s else ProcessAll(s, ArticlesToScan(s))
  }

  /** A scan does nothing while disabled; otherwise every article it lists ends up processed. */
  lemma ScanFacts(s: State)
    ensures !s.enabled ==> Scan(s) == s
    ensures s.enabled ==> Ids(ArticlesToScan(s)) <= Scan(s).processedPosts
    ensures KeepsConfig(s, Scan(s)) && Progress(s, Scan(s))
  {
    if s.enabled {
      ProcessAllMarks(s, ArticlesToScan(s));
      ProcessAllFacts(s, ArticlesToScan(s));
    } else {
      assert s.effects[..|s.effects|] == s.effects;
    }
  }

  /** The articles one added node brings: the node itself if it is an article, then the articles inside it. */
  function ArticlesOfNode(n: Node): (r: seq<Node>)
    ensures forall a :: a in r ==> HasTag(a, "ARTICLE")
  {
    if n.Element? then (if n.tagName == "ARTICLE" then [n] else []) + DescendantsWithTag(n, "ARTICLE")
    else []
  }

  /** The articles of all the added nodes one observer callback reports, in order. */
  function ArticlesOfAdded(added: seq<Node>): (r: seq<Node>)
    ensures forall a :: a in r ==> HasTag(a, "ARTICLE")
    decreases |added|
  {
    if added == [] then []
    else ArticlesOfAdded(added[..|added| - 1]) + ArticlesOfNode(added[|added| - 1])
  }

  /** The feed observer's callback for the nodes added to the feed. */
  function Deliver(s: State, added: seq<Node>): State {
    if !s.enabled then s else ProcessAll(s, ArticlesOfAdded(added))
  }

  /**
   * While disabled the callback does nothing; otherwise every article it is shown is
   * processed, and being shown the same nodes again changes nothing.
   */
  lemma DeliverFacts(s: State, added: seq<Node>)
    ensures !s.enabled ==> Deliver(s, added) == s
    ensures s.enabled ==> Ids(ArticlesOfAdded(added)) <= Deliver(s, added).processedPosts
    ensures Deliver(Deliver(s, added), added) == Deliver(s, added)
    ensures SettingsOf(Deliver(s, added)) == SettingsOf(s)
    ensures s.processedPosts <= Deliver(s, added).processedPosts
  {
    if s.enabled {
      ProcessAllMarks(s, ArticlesOfAdded(added));
      ProcessAllFacts(s, ArticlesOfAdded(added));
      ProcessAllIdempotent(s, ArticlesOfAdded(added));
    }
  }

  /** `findFeed()`: the parent element of the first `article` under the first `main`. */
  function FindFeed(page: Node): (r: Option<NodeId>)
    ensures r.Some? <==> QuerySelector(page, "MAIN").Some?
                         && QuerySelector(QuerySelector(page, "MAIN").value, "ARTICLE").Some?
    ensures r.Some? ==>
      var main := QuerySelector(page, "MAIN").value;
      exists p :: (p == main || p in DescendantElements(main)) && p.Element? && p.id == r.value
                  && QuerySelector(main, "ARTICLE").value in p.children
  {
    match QuerySelector(page, "MAIN")
    case None => None
    case Some(main) =>
      ParentOfFirstFound(main, "ARTICLE");
      ParentOfFirstIsParent(main, "ARTICLE");
      match ParentOfFirst(main, "ARTICLE")
      case None => None
      case Some(parent) => Some(parent.id)
  }

  /** `observeFeed()`: starts the feed observer once, and only when there is a feed. */
  function ObserveFeed(s: State): State {
    if s.feedContainer.None? || s.feedObserverActive then s else s.(feedObserverActive := true)
  }

  /** `findFeedAndObserve()`: observe and scan the feed if there is one, else wait for it. */
  function FindFeedAndObserve(s: State): State {
    var feed := FindFeed(s.page);
    var s1 := s.(feedContainer := feed);
    if feed.Some? then Scan(ObserveFeed(s1)) else s1.(waitingForFeed := true)
  }

  /** The body observer's callback: once the feed exists, stop waiting, observe it and scan it. */
  function BodyMutation(s: State): State {
    var feed := FindFeed(s.page);
    if feed.None? then s
    else Scan(ObserveFeed(s.(feedContainer := feed, waitingForFeed := false)))
  }

  /** `loadSettings()`: the stored values (defaults filled in) on success; on failure the fields keep their values. */
  function LoadSettings(s: State, stored: Option<Settings>): (r: State)
    ensures stored.Some? ==> SettingsOf(r) == stored.value
    ensures stored.None? ==> r == s
    ensures r.blockedCount == s.blockedCount && r.processedPosts == s.processedPosts && r.page == s.page
  {
    match stored
    case None => s
    case Some(st) => s.(enabled := st.enabled, blockAds := st.blockAds, blockRecommendations := st.blockRecommendations)
  }

  /**
   * The feed bookkeeping stays coherent: an observer runs only on a found feed, and the
   * controller waits for the feed only while it has none.
   */
  predicate FeedCoherent(s: State) {
    && (s.feedObserverActive ==> s.feedContainer.Some?)
    && (s.waitingForFeed ==> s.feedContainer.None?)
  }

  /** Start-up leaves the feed bookkeeping coherent, and either observes a feed or waits for one. */
  lemma FindFeedAndObserveFacts(s: State)
    requires !s.feedObserverActive && !s.waitingForFeed
    ensures var r := FindFeedAndObserve(s);
      && FeedCoherent(r)
      && (r.feedContainer.Some? <==> FindFeed(s.page).Some?)
      && (r.feedContainer.Some? ==> r.feedObserverActive)
      && (r.feedContainer.None? ==> r.waitingForFeed)
  {
    var s1 := s.(feedContainer := FindFeed(s.page));
    if FindFeed(s.page).Some? {
      ScanFacts(ObserveFeed(s1));
    }
  }

  /** The body observer keeps the bookkeeping coherent, and once it sees the feed the feed is observed. */
  lemma BodyMutationFacts(s: State)
    requires FeedCoherent(s)
    ensures FeedCoherent(BodyMutation(s))
    ensures FindFeed(s.page).Some? ==> BodyMutation(s).feedObserverActive && !BodyMutation(s).waitingForFeed
    ensures FindFeed(s.page).None? ==> BodyMutation(s) == s
  {
    if FindFeed(s.page).Some? {
      ScanFacts(ObserveFeed(s.(feedContainer := FindFeed(s.page), waitingForFeed := false)));
    }
  }

  // ---------------------------------------------------------------- messages

  /** `handleMessage(message)`: the new state and what `sendResponse` is called with, if anything. */
  function Handle(s: State, m: Message): (State, Option<Response>) {
    match m
    case GetStatus => (s, Some(StatusReply(StatusResponse(s.enabled, s.blockedCount))))
    case ToggleEnabled(e) =>
      var s1 := s.(enabled := e, effects := s.effects + [StorageSet(SettingsPatch(Some(e), None, None))]);
      (if e then Scan(s1) else s1, Some(SuccessReply(SuccessResponse(true))))
    case UpdateSettings(ads, recs) =>
      var s1 := s.(blockAds := ads.GetOr(s.blockAds), blockRecommendations := recs.GetOr(s.blockRecommendations));
      var patch := SettingsPatch(None, Some(s1.blockAds), Some(s1.blockRecommendations));
      (Scan(s1.(effects := s1.effects + [StorageSet(patch)])), Some(SuccessReply(SuccessResponse(true))))
    case GetBlockedCount => (s, Some(CountReply(s.blockedCount)))
    case PostBlocked(_, _) => (s, None)
    case GetGlobalCount => (s, None)
  }

  /** The queries change nothing; the two messages meant for the background script get no answer here. */
  lemma HandleQueries(s: State, m: Message)
    requires m.GetStatus? || m.GetBlockedCount? || m.PostBlocked? || m.GetGlobalCount?
    ensures Handle(s, m).0 == s
    ensures m.GetStatus? ==> Handle(s, m).1 == Some(StatusReply(StatusResponse(s.enabled, s.blockedCount)))
    ensures m.GetBlockedCount? ==> Handle(s, m).1 == Some(CountReply(s.blockedCount))
    ensures m.PostBlocked? || m.GetGlobalCount? ==> Handle(s, m).1.None?
  {
  }

  /**
   * `TOGGLE_ENABLED`: the flag takes the message's value and is stored; switching off
   * processes and hides nothing, switching on rescans the feed.
   */
  lemma HandleToggle(s: State, e: bool)
    ensures var (r, resp) := Handle(s, ToggleEnabled(e));
      && r.enabled == e && r.blockAds == s.blockAds && r.blockRecommendations == s.blockRecommendations
      && resp == Some(SuccessReply(SuccessResponse(true)))
      && (!e ==> r.processedPosts == s.processedPosts && r.blockedCount == s.blockedCount && r.page == s.page)
      && (e ==> Ids(ArticlesToScan(s)) <= r.processedPosts)
  {
    var s1 := s.(enabled := e, effects := s.effects + [StorageSet(SettingsPatch(Some(e), None, None))]);
    ScanFacts(s1);
  }

  /** `UPDATE_SETTINGS`: a flag the message leaves out keeps its value, a flag it carries is taken; `enabled` is untouched. */
  lemma HandleUpdate(s: State, ads: Option<bool>, recs: Option<bool>)
    ensures var (r, resp) := Handle(s, UpdateSettings(ads, recs));
      && r.enabled == s.enabled
      && (ads.None? ==> r.blockAds == s.blockAds) && (ads.Some? ==> r.blockAds == ads.value)
      && (recs.None? ==> r.blockRecommendations == s.blockRecommendations)
      && (recs.Some? ==> r.blockRecommendations == recs.value)
      && resp == Some(SuccessReply(SuccessResponse(true)))
      && (!s.enabled ==> r.processedPosts == s.processedPosts && r.blockedCount == s.blockedCount && r.page == s.page)
      && (s.enabled ==> Ids(ArticlesToScan(s)) <= r.processedPosts)
  {
    var s1 := s.(blockAds := ads.GetOr(s.blockAds), blockRecommendations := recs.GetOr(s.blockRecommendations));
    var s2 := s1.(effects := s1.effects + [StorageSet(SettingsPatch(None, Some(s1.blockAds), Some(s1.blockRecommendations)))]);
    assert ArticlesToScan(s2) == ArticlesToScan(s);
    ScanFacts(s2);
  }

  /**
   * Turning a category on does not reach posts already seen: once every article of the feed
   * is processed, `UPDATE_SETTINGS` hides nothing and counts nothing, whatever it enables.
   */
  lemma UpdateDoesNotReclassify(s: State, ads: Option<bool>, recs: Option<bool>)
    requires Ids(ArticlesToScan(s)) <= s.processedPosts
    ensures var r := Handle(s, UpdateSettings(ads, recs)).0;
      r.page == s.page && r.blockedCount == s.blockedCount && r.processedPosts == s.processedPosts
  {
    var s1 := s.(blockAds := ads.GetOr(s.blockAds), blockRecommendations := recs.GetOr(s.blockRecommendations));
    var s2 := s1.(effects := s1.effects + [StorageSet(SettingsPatch(None, Some(s1.blockAds), Some(s1.blockRecommendations)))]);
    assert ArticlesToScan(s2) == ArticlesToScan(s);
    if s2.enabled {
      ProcessAllSkipsProcessed(s2, ArticlesToScan(s2));
    }
  }

  /** No message lowers a counter or forgets a processed post. */
  lemma HandleMonotone(s: State, m: Message)
    ensures var r := Handle(s, m).0;
      && r.blockedCount.ads >= s.blockedCount.ads
      && r.blockedCount.recommendations >= s.blockedCount.recommendations
      && s.processedPosts <= r.processedPosts
  {
    match m
    case ToggleEnabled(e) => HandleToggle(s, e);
      ScanFacts(s.(enabled := e, effects := s.effects + [StorageSet(SettingsPatch(Some(e), None, None))]));
    case UpdateSettings(ads, recs) =>
      var s1 := s.(blockAds := ads.GetOr(s.blockAds), blockRecommendations := recs.GetOr(s.blockRecommendations));
      ScanFacts(s1.(effects := s1.effects + [StorageSet(SettingsPatch(None, Some(s1.blockAds), Some(s1.blockRecommendations)))]));
    case _ =>
  }

  /** The stored settings after the writes among `effects`, in order. */
  function StoredAfter(stored: Settings, effects: seq<Effect>): Settings
    decreases |effects|
  {
    if effects == [] then stored
    else StoredAfter(if effects[0].StorageSet? then ApplyPatch(stored, effects[0].patch) else stored, effects[1..])
  }

  lemma {:induction false} StoredAfterPosts(stored: Settings, effects: seq<Effect>)
    requires forall k :: 0 <= k < |effects| ==> effects[k].SendMessage?
    ensures StoredAfter(stored, effects) == stored
  {
    if effects != [] {
      StoredAfterPosts(stored, effects[1..]);
    }
  }

  /**
   * Storage follows the controller: if what is stored matched the settings before a
   * message, the writes the message makes leave it matching the settings after.
   */
  lemma HandleKeepsStorageInSync(s: State, m: Message)
    ensures var r := Handle(s, m).0;
      |s.effects| <= |r.effects| && r.effects[..|s.effects|] == s.effects
      && StoredAfter(SettingsOf(s), r.effects[|s.effects|..]) == SettingsOf(r)
  {
    match m
    case ToggleEnabled(e) => ToggleKeepsStorageInSync(s, e);
    case UpdateSettings(ads, recs) => UpdateKeepsStorageInSync(s, ads, recs);
    case _ =>
      var r := Handle(s, m).0;
      assert r.effects[|s.effects|..] == [];
  }

  lemma ToggleKeepsStorageInSync(s: State, e: bool)
    ensures var r := Handle(s, ToggleEnabled(e)).0;
      |s.effects| <= |r.effects| && r.effects[..|s.effects|] == s.effects
      && StoredAfter(SettingsOf(s), r.effects[|s.effects|..]) == SettingsOf(r)
  {
    var s1 := s.(enabled := e, effects := s.effects + [StorageSet(SettingsPatch(Some(e), None, None))]);
    ScanFacts(s1);
    SyncAfterWrite(s, s1, Handle(s, ToggleEnabled(e)).0);
  }

  lemma UpdateKeepsStorageInSync(s: State, ads: Option<bool>, recs: Option<bool>)
    ensures var r := Handle(s, UpdateSettings(ads, recs)).0;
      |s.effects| <= |r.effects| && r.effects[..|s.effects|] == s.effects
      && StoredAfter(SettingsOf(s), r.effects[|s.effects|..]) == SettingsOf(r)
  {
    var s0 := s.(blockAds := ads.GetOr(s.blockAds), blockRecommendations := recs.GetOr(s.blockRecommendations));
    var s1 := s0.(effects := s0.effects + [StorageSet(SettingsPatch(None, Some(s0.blockAds), Some(s0.blockRecommendations)))]);
    ScanFacts(s1);
    SyncAfterWrite(s, s1, Handle(s, UpdateSettings(ads, recs)).0);
  }

  /** One settings write followed only by messages brings the store from `s`'s settings to `r`'s. */
  lemma SyncAfterWrite(s: State, s1: State, r: State)
    requires |s1.effects| == |s.effects| + 1 && s1.effects[..|s.effects|] == s.effects
    requires s1.effects[|s.effects|].StorageSet?
    requires ApplyPatch(SettingsOf(s), s1.effects[|s.effects|].patch) == SettingsOf(s1)
    requires OnlyPostsAfter(s1.effects, r.effects) && SettingsOf(r) == SettingsOf(s1)
    ensures |s.effects| <= |r.effects| && r.effects[..|s.effects|] == s.effects
    ensures StoredAfter(SettingsOf(s), r.effects[|s.effects|..]) == SettingsOf(r)
  {
    var tail := r.effects[|s.effects|..];
    assert tail[0] == s1.effects[|s.effects|];
    assert tail[1..] == r.effects[|s1.effects|..];
    StoredAfterPosts(SettingsOf(s1), tail[1..]);
  }
}
