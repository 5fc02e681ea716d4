/**
 * The older content script's `InstagramBlocker` as a state and pure transitions. It differs
 * from the current controller in how it classifies (three sponsored checks over the whole
 * article; a recommendation check that walks up to five ancestors and then the `header`
 * with substring containment), in what it hides (a post container found by walking up the
 * tree, marked with a class), in when it marks an article (after processing it), in how
 * it reacts to mutations (a debounced full rescan) and in its block flags, which stay
 * `undefined` until settings load and are then falsy.
 */
module LegacyModel {
  import opened Wrappers
  import opened Strings
  import opened Dom
  import opened DomUtils
  import opened Types
  import opened Chrome

  const SponsoredKeywords: seq<string> := [
    "Sponsored", "광고", "Publicidad", "Gesponsert", "Sponsorisé", "Patrocinado", "広告", "贊助", "赞助"
  ]

  /** Seven banners; `추천` ("recommended") is matched as a substring, so any text containing it counts. */
  const RecommendedKeywords: seq<string> := [
    "Suggested for you", "Recommended for you", "추천", "회원님을 위한 추천", "Sugerido para ti",
    "Empfohlen für dich", "Suggéré pour vous"
  ]

  /** How many ancestors the recommendation check looks at. */
  const MaxDepth := 5

  const HiddenClass := "ig-blocker-hidden"

  /** A flag that is `undefined` (`None`) until settings load: only `true` passes an `&&` guard. */
  predicate Truthy(flag: Option<bool>) {
    flag == Some(true)
  }

  // ---------------------------------------------------------------- isSponsored

  predicate IsSpanOrLink(e: Node) {
    HasTag(e, "SPAN") || HasTag(e, "A")
  }

  /** Method 1: some `span` or `a` of the article has, trimmed, exactly a sponsored label as its text. */
  predicate LabelledSpanOrLink(article: Node) {
    exists i :: 0 <= i < |DescendantElements(article)|
      && IsSpanOrLink(DescendantElements(article)[i]) && HasKeywordText(DescendantElements(article)[i], SponsoredKeywords)
  }

  /** `ariaLabel.toLowerCase().includes(keyword.toLowerCase())` for some keyword. */
  predicate MentionsKeyword(ariaLabel: string, keywords: seq<string>) {
    exists k :: 0 <= k < |keywords| && Includes(ToLower(ariaLabel), ToLower(keywords[k]))
  }

  predicate HasAriaLabel(e: Node) {
    e.Element? && "aria-label" in e.attributes
  }

  /** Some element of the article has an `aria-label` mentioning one of `keywords`, in any case. */
  predicate SomeAriaLabelMentions(article: Node, keywords: seq<string>) {
    exists i :: 0 <= i < |DescendantElements(article)|
      && HasAriaLabel(DescendantElements(article)[i])
      && MentionsKeyword(DescendantElements(article)[i].attributes["aria-label"], keywords)
  }

  /** Method 2: some element of the article has an `aria-label` mentioning a sponsored label, in any case. */
  predicate SponsoredAriaLabel(article: Node) {
    SomeAriaLabelMentions(article, SponsoredKeywords)
  }

  /** Method 3: some `span` of the article without element children has exactly a sponsored label as its trimmed text. */
  predicate LabelledLeafSpan(article: Node) {
    exists i :: 0 <= i < |DescendantElements(article)|
      && HasTag(DescendantElements(article)[i], "SPAN")
      && ElementChildren(DescendantElements(article)[i].children) == []
      && HasKeywordText(DescendantElements(article)[i], SponsoredKeywords)
  }

  /** `isSponsored(article)`: the three checks, in order. */
  predicate IsSponsored(article: Node) {
    LabelledSpanOrLink(article) || SponsoredAriaLabel(article) || LabelledLeafSpan(article)
  }

  /** The third check is redundant: every span it accepts the first check has already accepted. */
  lemma LeafSpanCheckRedundant(article: Node)
    ensures LabelledLeafSpan(article) ==> LabelledSpanOrLink(article)
    ensures IsSponsored(article) <==> LabelledSpanOrLink(article) || SponsoredAriaLabel(article)
  {
    if LabelledLeafSpan(article) {
      var i :| 0 <= i < |DescendantElements(article)|
        && HasTag(DescendantElements(article)[i], "SPAN")
        && ElementChildren(DescendantElements(article)[i].children) == []
        && HasKeywordText(DescendantElements(article)[i], SponsoredKeywords);
      assert IsSpanOrLink(DescendantElements(article)[i]);
    }
  }

  /** Lower-cased, "SPONSORED post" includes the lower-cased "Sponsored". */
  lemma UpperCaseFolds()
    ensures ToLower("SPONSORED") == ToLower("Sponsored")
  {
    forall i | 0 <= i < 9
      ensures ToLower("SPONSORED")[i] == ToLower("Sponsored")[i]
    {
    }
  }

  lemma UpperCaseIncludesSponsored()
    ensures Includes(ToLower("SPONSORED" + " post"), ToLower("Sponsored"))
  {
    UpperCaseFolds();
    ToLowerAppend("SPONSORED", " post");
    IncludesPiece([], ToLower("SPONSORED"), ToLower(" post"));
    assert [] + ToLower("SPONSORED") + ToLower(" post") == ToLower("SPONSORED") + ToLower(" post");
  }

  /** An upper-case label mentions the keyword it starts with: the comparison ignores case. */
  lemma UpperCaseLabelMentionsSponsored()
    ensures MentionsKeyword("SPONSORED" + " post", SponsoredKeywords)
  {
    UpperCaseIncludesSponsored();
    assert SponsoredKeywords[0] == "Sponsored";
  }

  /**
   * The `aria-label` check ignores case and accepts surrounding words, which the text checks
   * do not: a button labelled "SPONSORED post" makes an article sponsored by the second
   * check alone.
   */
  lemma AriaLabelIsCaseInsensitiveContainment()
    ensures var button := Element(PageNode(1), "DIV", map["aria-label" := "SPONSORED" + " post"], {}, false, false, []);
            var article := Element(PageNode(0), "ARTICLE", map[], {}, false, false, [button]);
            SponsoredAriaLabel(article) && !LabelledSpanOrLink(article) && !LabelledLeafSpan(article)
  {
    var button := Element(PageNode(1), "DIV", map["aria-label" := "SPONSORED" + " post"], {}, false, false, []);
    var article := Element(PageNode(0), "ARTICLE", map[], {}, false, false, [button]);
    assert DescendantElementsSeq([button]) == [button] + DescendantElements(button) + DescendantElementsSeq([]);
    assert DescendantElements(article) == [button];
    UpperCaseLabelMentionsSponsored();
    assert HasAriaLabel(button) && MentionsKeyword("SPONSORED" + " post", SponsoredKeywords);
  }

  // ---------------------------------------------------------------- isRecommended

  /** The text of the element children of `es` before the first one that is or contains `id`. */
  function SiblingTextOf(es: seq<Node>, id: NodeId): string {
    if es == [] || ContainsId(es[0], id) then [] else TextContent(es[0]) + SiblingTextOf(es[1..], id)
  }

  /** `getSiblingText(article, container)`. */
  function SiblingText(id: NodeId, container: Node): string
    requires container.Element?
  {
    SiblingTextOf(ElementChildren(container.children), id)
  }

  /** The position of the first node of `es` that is or contains `id`; `|es|` when there is none. */
  function FirstContaining(es: seq<Node>, id: NodeId): (k: nat)
    ensures k <= |es|
    ensures k < |es| ==> ContainsId(es[k], id)
    ensures forall j :: 0 <= j < k ==> !ContainsId(es[j], id)
  {
    if es == [] || ContainsId(es[0], id) then 0 else 1 + FirstContaining(es[1..], id)
  }

  /** The sibling text is the text of exactly the children before the one holding the article (all of them if none does). */
  lemma {:induction false} SiblingTextIsPrecedingText(es: seq<Node>, id: NodeId)
    ensures SiblingTextOf(es, id) == TextContentSeq(es[..FirstContaining(es, id)])
  {
    if es != [] && !ContainsId(es[0], id) {
      SiblingTextIsPrecedingText(es[1..], id);
      var k := FirstContaining(es, id);
      assert es[..k][0] == es[0] && es[..k][1..] == es[1..][..k - 1];
    }
  }

  /** A loop that stops at the first child holding the article has gathered exactly the sibling text. */
  lemma SiblingTextStopsAt(es: seq<Node>, id: NodeId, i: nat)
    requires i <= |es| && (i < |es| ==> ContainsId(es[i], id))
    requires forall j :: 0 <= j < i ==> !ContainsId(es[j], id)
    ensures SiblingTextOf(es, id) == TextContentSeq(es[..i])
  {
    assert FirstContaining(es, id) == i;
    SiblingTextIsPrecedingText(es, id);
  }

  /** The ancestors the walk visits: the first five, fewer if the tree is shallower. */
  function Walked(chain: seq<Node>): (w: seq<Node>)
    ensures |w| <= MaxDepth && w <= chain
  {
    if |chain| <= MaxDepth then chain else chain[..MaxDepth]
  }

  /** The ancestor's text contains `keyword`, and so does the text of its children before the article. */
  predicate LabelsArticle(parent: Node, id: NodeId, keyword: string) {
    parent.Element? && Includes(TextContent(parent), keyword) && Includes(SiblingText(id, parent), keyword)
  }

  /** The first tier: one of the walked ancestors labels the article with a banner. */
  predicate AncestorLabelled(chain: seq<Node>, id: NodeId) {
    exists i, k :: 0 <= i < |Walked(chain)| && 0 <= k < |RecommendedKeywords|
      && LabelsArticle(Walked(chain)[i], id, RecommendedKeywords[k])
  }

  /** The second tier: the first `header` inside the article contains a banner. */
  predicate HeaderLabelled(article: Node) {
    QuerySelector(article, "HEADER").Some?
    && exists k :: 0 <= k < |RecommendedKeywords| && Includes(TextContent(QuerySelector(article, "HEADER").value), RecommendedKeywords[k])
  }

  /** `isRecommended(article)`, the ancestors read from the page the article is in. */
  predicate IsRecommended(page: Node, article: Node)
    requires article.Element?
  {
    AncestorLabelled(ParentChain(page, article.id), article.id) || HeaderLabelled(article)
  }

  /** Ancestors above the fifth are never looked at: whatever lies beyond them, the first tier decides the same. */
  lemma WalkStopsAtFive(chain: seq<Node>, beyond: seq<Node>, id: NodeId)
    requires |chain| == MaxDepth
    ensures AncestorLabelled(chain + beyond, id) <==> AncestorLabelled(chain, id)
  {
    assert Walked(chain + beyond) == Walked(chain) by {
      assert (chain + beyond)[..MaxDepth] == chain;
    }
  }

  /**
   * Unlike the current script, the header tier is containment: a header reading
   * "alice • Suggested for you today" marks a recommendation.
   */
  lemma HeaderTierIsContainment()
    ensures var header := Element(PageNode(1), "HEADER", map[], {}, false, false, [Text("alice • Suggested for you today")]);
            var article := Element(PageNode(0), "ARTICLE", map[], {}, false, false, [header]);
            HeaderLabelled(article)
  {
    var text := "alice • " + RecommendedKeywords[0] + " today";
    assert text == "alice • Suggested for you today";
    var header := Element(PageNode(1), "HEADER", map[], {}, false, false, [Text(text)]);
    var article := Element(PageNode(0), "ARTICLE", map[], {}, false, false, [header]);
    assert DescendantElementsSeq([header]) == [header] + DescendantElements(header) + DescendantElementsSeq([]);
    assert DescendantElementsSeq([Text(text)]) == [];
    assert DescendantElements(article) == [header];
    assert TextContentSeq([Text(text)]) == text + TextContentSeq([]);
    assert TextContent(header) == text;
    IncludesPiece("alice • ", RecommendedKeywords[0], " today");
  }

  // ---------------------------------------------------------------- hidePost

  predicate StopsWalk(p: Node) {
    HasTag(p, "MAIN") || HasTag(p, "SECTION")
  }

  /** A flex or grid ancestor with at most three element children: taken for the post's own box. */
  predicate PostBox(p: Node) {
    p.Element? && p.flexOrGrid && |ElementChildren(p.children)| <= 3
  }

  /** `findPostContainer`: walking up `chain` from `container`, the last box met before a `main` or `section`. */
  function PostContainer(chain: seq<Node>, container: Node): (r: Node)
    ensures r == container || r in chain
    decreases |chain|
  {
    if chain == [] || StopsWalk(chain[0]) then container
    else PostContainer(chain[1..], if PostBox(chain[0]) then chain[0] else container)
  }

  /** The position of the first `main` or `section` in `chain`; `|chain|` when there is none. */
  function StopIndex(chain: seq<Node>): (k: nat)
    ensures k <= |chain|
    ensures k < |chain| ==> StopsWalk(chain[k])
    ensures forall j :: 0 <= j < k ==> !StopsWalk(chain[j])
  {
    if chain == [] || StopsWalk(chain[0]) then 0 else 1 + StopIndex(chain[1..])
  }

  /**
   * The container is the outermost box below the first `main` or `section` (`i` is its
   * position among the ancestors), or the starting element when there is no such box.
   */
  lemma {:induction false} PostContainerIsOutermostBox(chain: seq<Node>, start: Node) returns (i: int)
    ensures -1 <= i < StopIndex(chain)
    ensures i == -1 ==> PostContainer(chain, start) == start
                        && forall j :: 0 <= j < StopIndex(chain) ==> !PostBox(chain[j])
    ensures i >= 0 ==> PostContainer(chain, start) == chain[i] && PostBox(chain[i])
                       && forall j :: i < j < StopIndex(chain) ==> !PostBox(chain[j])
    decreases |chain|
  {
    if chain == [] || StopsWalk(chain[0]) {
      return -1;
    }
    var next := if PostBox(chain[0]) then chain[0] else start;
    var i' := PostContainerIsOutermostBox(chain[1..], next);
    if i' >= 0 {
      i := i' + 1;
    } else if PostBox(chain[0]) {
      i := 0;
    } else {
      i := -1;
    }
  }

  /** The class and the `data-blocked-type` attribute `hidePost` puts on the container. */
  function MarkHidden(container: Node, t: BlockedType): (r: Node)
    requires container.Element?
    ensures r.Element? && r.id == container.id && r.children == container.children
    ensures HiddenClass in r.classList && container.classList <= r.classList
    ensures "data-blocked-type" in r.attributes && ParseBlockedType(r.attributes["data-blocked-type"]) == Some(t)
  {
    container.(classList := container.classList + {HiddenClass},
               attributes := container.attributes["data-blocked-type" := BlockedTypeName(t)])
  }

  // ---------------------------------------------------------------- state

  /** The fields, the page, and the calls made; `scanPending` says whether the debounce timer is set. */
  datatype State = State(
    enabled: bool,
    blockAds: Option<bool>,
    blockRecommendations: Option<bool>,
    blockedCount: BlockedCount,
    processedPosts: set<NodeId>,
    scanPending: bool,
    page: Node,
    effects: seq<Effect>)

  /** The constructor: enabled, nothing counted, and the two block flags not yet set. */
  function InitialState(page: Node): State {
    State(true, None, None, BlockedCount(0, 0), {}, false, page, [])
  }

  /** The container `hidePost` marks for `article`. */
  function ContainerOf(page: Node, article: Node): (r: Node)
    requires article.Element?
    ensures r.Element?
  {
    PostContainer(ParentChain(page, article.id), article)
  }

  /** `hidePost(article, t)`: the container is marked, the counter for `t` goes up and the new count is posted. */
  function HidePost(s: State, article: Node, t: BlockedType): State
    requires article.Element?
  {
    var id := ContainerOf(s.page, article).id;
    var page := match FindById(s.page, id)
                case Some(live) => Replace(s.page, id, MarkHidden(live, t))
                case None => s.page;
    var count := Bump(s.blockedCount, t);
    s.(page := page, blockedCount := count, effects := s.effects + [SendMessage(PostBlocked(t, count))])
  }

  /**
   * The container always exists, so hiding always counts: exactly the counter for `t` goes
   * up, one message with the new count is sent, and the container in the page is marked.
   */
  lemma HidePostFacts(s: State, article: Node, t: BlockedType)
    requires article.Element?
    ensures var r := HidePost(s, article, t); var c := ContainerOf(s.page, article);
      && r.blockedCount == Bump(s.blockedCount, t)
      && r.effects == s.effects + [SendMessage(PostBlocked(t, r.blockedCount))]
      && r.enabled == s.enabled && r.blockAds == s.blockAds && r.blockRecommendations == s.blockRecommendations
      && r.processedPosts == s.processedPosts && r.scanPending == s.scanPending
      && (ContainsId(s.page, c.id) ==>
            FindById(s.page, c.id).Some?
            && FindById(r.page, c.id) == Some(MarkHidden(FindById(s.page, c.id).value, t)))
  {
    var c := ContainerOf(s.page, article);
    FindByIdContains(s.page, c.id);
    if ContainsId(s.page, c.id) {
      ReplaceThenFind(s.page, c.id, MarkHidden(FindById(s.page, c.id).value, t));
    }
  }

  /** `processPost(article)`: ads first; at most one hide. */
  function ProcessPost(s: State, article: Node): State
    requires article.Element?
  {
    if Truthy(s.blockAds) && IsSponsored(article) then HidePost(s, article, Ad)
    else if Truthy(s.blockRecommendations) && IsRecommended(s.page, article) then HidePost(s, article, Recommendation)
    else s
  }

  /** One post: hidden as an ad when ads are blocked and it is sponsored, else as a recommendation when those are blocked and it is one, else untouched. */
  lemma ProcessPostFacts(s: State, article: Node)
    requires article.Element?
    ensures var r := ProcessPost(s, article);
      && ((Truthy(s.blockAds) && IsSponsored(article)) ==> r.blockedCount == Bump(s.blockedCount, Ad))
      && ((!(Truthy(s.blockAds) && IsSponsored(article)) && Truthy(s.blockRecommendations)
           && IsRecommended(s.page, article)) ==> r.blockedCount == Bump(s.blockedCount, Recommendation))
      && ((!(Truthy(s.blockAds) && IsSponsored(article))
           && !(Truthy(s.blockRecommendations) && IsRecommended(s.page, article))) ==> r == s)
      && r.blockedCount.Total() <= s.blockedCount.Total() + 1
      && r.processedPosts == s.processedPosts
      && r.enabled == s.enabled && r.blockAds == s.blockAds && r.blockRecommendations == s.blockRecommendations
  {
    if Truthy(s.blockAds) && IsSponsored(article) {
      HidePostFacts(s, article, Ad);
    } else if Truthy(s.blockRecommendations) && IsRecommended(s.page, article) {
      HidePostFacts(s, article, Recommendation);
    }
  }

  /** One iteration of `scanAndBlock`'s loop: skip a processed article, else process it and then mark it. */
  function ScanStep(s: State, article: Node): State
    requires article.Element?
  {
    if article.id in s.processedPosts then s
    else
      var r := ProcessPost(s, article);
      r.(processedPosts := r.processedPosts + {article.id})
  }

  function ScanAll(s: State, xs: seq<Node>): State
    requires AllElements(xs)
    decreases |xs|
  {
    if xs == [] then s else ScanStep(ScanAll(s, xs[..|xs| - 1]), xs[|xs| - 1])
  }

  /** `scanAndBlock()`: every article of the document, in order, unless disabled. */
  function Scan(s: State): State {
    if !s.enabled then s else ScanAll(s, DescendantsWithTag(s.page, "ARTICLE"))
  }

  lemma ScanAllSnoc(s: State, xs: seq<Node>, x: Node)
    requires AllElements(xs) && x.Element?
    ensures AllElements(xs + [x])
    ensures ScanAll(s, xs + [x]) == ScanStep(ScanAll(s, xs), x)
  {
    assert (xs + [x])[..|xs|] == xs;
  }

  /**
   * From `s` to `r` the settings are kept, no counter goes down, no processed post is
   * forgotten, and at most one post is hidden per newly processed article.
   */
  predicate Advances(s: State, r: State) {
    && r.enabled == s.enabled && r.blockAds == s.blockAds && r.blockRecommendations == s.blockRecommendations
    && r.blockedCount.ads >= s.blockedCount.ads
    && r.blockedCount.recommendations >= s.blockedCount.recommendations
    && s.processedPosts <= r.processedPosts
    && r.blockedCount.Total() + |s.processedPosts| <= s.blockedCount.Total() + |r.processedPosts|
  }

  lemma AdvancesTransitive(a: State, b: State, c: State)
    requires Advances(a, b) && Advances(b, c)
    ensures Advances(a, c)
  {
  }

  /** One step marks its article and advances. */
  lemma ScanStepFacts(s: State, x: Node)
    requires x.Element?
    ensures ScanStep(s, x).processedPosts == s.processedPosts + {x.id}
    ensures Advances(s, ScanStep(s, x))
  {
    ProcessPostFacts(s, x);
    if x.id !in s.processedPosts {
      assert |ScanStep(s, x).processedPosts| == |s.processedPosts| + 1;
    }
  }

  /** A scan marks exactly the articles it lists. */
  lemma {:induction false} ScanAllMarks(s: State, xs: seq<Node>)
    requires AllElements(xs)
    ensures ScanAll(s, xs).processedPosts == s.processedPosts + Ids(xs)
    decreases |xs|
  {
    if xs != [] {
      var init, x := xs[..|xs| - 1], xs[|xs| - 1];
      assert forall y :: y in init ==> y in xs;
      ScanAllMarks(s, init);
      ScanStepFacts(ScanAll(s, init), x);
      assert xs == init + [x];
      IdsSnoc(init, x);
    }
  }

  /** A scan keeps the settings, never lowers a counter, and hides at most once per newly processed article. */
  lemma {:induction false} ScanAllAdvances(s: State, xs: seq<Node>)
    requires AllElements(xs)
    ensures Advances(s, ScanAll(s, xs))
    decreases |xs|
  {
    if xs != [] {
      var init, x := xs[..|xs| - 1], xs[|xs| - 1];
      assert forall y :: y in init ==> y in xs;
      ScanAllAdvances(s, init);
      ScanStepFacts(ScanAll(s, init), x);
      AdvancesTransitive(s, ScanAll(s, init), ScanAll(s, xs));
    }
  }

  /** Articles already processed are skipped: a scan over them alone changes nothing. */
  lemma {:induction false} ScanAllSkipsProcessed(s: State, xs: seq<Node>)
    requires AllElements(xs) && Ids(xs) <= s.processedPosts
    ensures ScanAll(s, xs) == s
    decreases |xs|
  {
    if xs != [] {
      var init, x := xs[..|xs| - 1], xs[|xs| - 1];
      assert forall y :: y in init ==> y in xs;
      assert Ids(init) <= Ids(xs);
      ScanAllSkipsProcessed(s, init);
      assert x in xs;
    }
  }

  /** Each article is processed at most once: the same list scanned again changes nothing. */
  lemma ScanAllIdempotent(s: State, xs: seq<Node>)
    requires AllElements(xs)
    ensures ScanAll(ScanAll(s, xs), xs) == ScanAll(s, xs)
  {
    ScanAllMarks(s, xs);
    ScanAllSkipsProcessed(ScanAll(s, xs), xs);
  }

  /**
   * `scanAndBlock()` does nothing when disabled; otherwise it marks every article of the page
   * as processed, keeps the settings, and hides at most once per newly processed article.
   */
  lemma ScanFacts(s: State)
    ensures !s.enabled ==> Scan(s) == s
    ensures s.enabled ==> Scan(s).processedPosts == s.processedPosts + Ids(DescendantsWithTag(s.page, "ARTICLE"))
    ensures Advances(s, Scan(s))
  {
    if s.enabled {
      ScanAllMarks(s, DescendantsWithTag(s.page, "ARTICLE"));
      ScanAllAdvances(s, DescendantsWithTag(s.page, "ARTICLE"));
    }
  }

  /**
   * Before settings load (or when loading failed) both flags are `undefined`: a scan then
   * marks every article as processed and blocks none.
   */
  lemma {:induction false} UnsetFlagsBlockNothing(s: State, xs: seq<Node>)
    requires AllElements(xs) && s.blockAds.None? && s.blockRecommendations.None?
    ensures ScanAll(s, xs).blockedCount == s.blockedCount
    ensures ScanAll(s, xs).page == s.page
    decreases |xs|
  {
    if xs != [] {
      var init := xs[..|xs| - 1];
      assert forall y :: y in init ==> y in xs;
      UnsetFlagsBlockNothing(s, init);
      ScanAllAdvances(s, init);
    }
  }

  // ---------------------------------------------------------------- events

  /** `loadSettings()`: stored values on success (the flags become defined); unchanged on failure. */
  function LoadSettings(s: State, stored: Option<Settings>): (r: State)
    ensures stored.Some? ==> r.enabled == stored.value.enabled
                             && r.blockAds == Some(stored.value.blockAds)
                             && r.blockRecommendations == Some(stored.value.blockRecommendations)
    ensures stored.None? ==> r == s
  {
    match stored
    case None => s
    case Some(st) => s.(enabled := st.enabled, blockAds := Some(st.blockAds), blockRecommendations := Some(st.blockRecommendations))
  }

  /** `init()`: load the settings, then scan once. */
  function Init(s: State, stored: Option<Settings>): State {
    Scan(LoadSettings(s, stored))
  }

  /** The body observer's callback: while enabled, (re)arm the 100 ms timer. */
  function OnMutation(s: State): State {
    if !s.enabled then s else s.(scanPending := true)
  }

  /** The timer fires: one full scan. */
  function OnScanTimer(s: State): State {
    Scan(s.(scanPending := false))
  }

  /** A burst of mutations arms one timer: the callback coalesces, and does nothing while disabled. */
  lemma DebounceCoalesces(s: State)
    ensures OnMutation(OnMutation(s)) == OnMutation(s)
    ensures !s.enabled ==> OnMutation(s) == s
    ensures s.enabled ==> OnMutation(s).scanPending
  {
  }

  /** `handleMessage`; `??` on the two flags keeps an `undefined` flag undefined when the message leaves it out. */
  function Handle(s: State, m: Message): (State, Option<Response>) {
    match m
    case GetStatus => (s, Some(StatusReply(StatusResponse(s.enabled, s.blockedCount))))
    case ToggleEnabled(e) =>
      var s1 := s.(enabled := e, effects := s.effects + [StorageSet(SettingsPatch(Some(e), None, None))]);
      (if e then Scan(s1) else s1, Some(SuccessReply(SuccessResponse(true))))
    case UpdateSettings(ads, recs) =>
      var s1 := s.(blockAds := if ads.Some? then ads else s.blockAds,
                   blockRecommendations := if recs.Some? then recs else s.blockRecommendations);
      var patch := SettingsPatch(None, s1.blockAds, s1.blockRecommendations);
      (Scan(s1.(effects := s1.effects + [StorageSet(patch)])), Some(SuccessReply(SuccessResponse(true))))
    case GetBlockedCount => (s, Some(CountReply(s.blockedCount)))
    case PostBlocked(_, _) => (s, None)
    case GetGlobalCount => (s, None)
  }

  /** `TOGGLE_ENABLED` stores the new value; it rescans only when turning on. */
  lemma HandleToggle(s: State, e: bool)
    ensures var (r, resp) := Handle(s, ToggleEnabled(e));
      && r.enabled == e
      && resp == Some(SuccessReply(SuccessResponse(true)))
      && (!e ==> r == s.(enabled := false, effects := s.effects + [StorageSet(SettingsPatch(Some(false), None, None))]))
      && (e ==> r.processedPosts == s.processedPosts + Ids(DescendantsWithTag(s.page, "ARTICLE")))
  {
    var s1 := s.(enabled := e, effects := s.effects + [StorageSet(SettingsPatch(Some(e), None, None))]);
    ScanFacts(s1);
  }

  /** `UPDATE_SETTINGS` takes the flags the message carries and keeps the others, defined or not. */
  lemma HandleUpdate(s: State, ads: Option<bool>, recs: Option<bool>)
    ensures var (r, resp) := Handle(s, UpdateSettings(ads, recs));
      && r.enabled == s.enabled
      && (ads.None? ==> r.blockAds == s.blockAds) && (ads.Some? ==> r.blockAds == ads)
      && (recs.None? ==> r.blockRecommendations == s.blockRecommendations)
      && (recs.Some? ==> r.blockRecommendations == recs)
      && resp == Some(SuccessReply(SuccessResponse(true)))
      && (!s.enabled ==> r.processedPosts == s.processedPosts && r.blockedCount == s.blockedCount && r.page == s.page)
      && (s.enabled ==> r.processedPosts == s.processedPosts + Ids(DescendantsWithTag(s.page, "ARTICLE")))
  {
    var s1 := s.(blockAds := if ads.Some? then ads else s.blockAds,
                 blockRecommendations := if recs.Some? then recs else s.blockRecommendations);
    var s2 := s1.(effects := s1.effects + [StorageSet(SettingsPatch(None, s1.blockAds, s1.blockRecommendations))]);
    ScanFacts(s2);
  }

  /** No message lowers a counter or forgets a processed post; the queries change nothing. */
  lemma HandleMonotone(s: State, m: Message)
    ensures var r := Handle(s, m).0;
      && r.blockedCount.ads >= s.blockedCount.ads
      && r.blockedCount.recommendations >= s.blockedCount.recommendations
      && s.processedPosts <= r.processedPosts
    ensures m.GetStatus? || m.GetBlockedCount? || m.PostBlocked? || m.GetGlobalCount? ==> Handle(s, m).0 == s
  {
    match m
    case ToggleEnabled(e) =>
      var s1 := s.(enabled := e, effects := s.effects + [StorageSet(SettingsPatch(Some(e), None, None))]);
      if e {
        ScanAllAdvances(s1, DescendantsWithTag(s1.page, "ARTICLE"));
      }
    case UpdateSettings(ads, recs) =>
      var s1 := s.(blockAds := if ads.Some? then ads else s.blockAds,
                   blockRecommendations := if recs.Some? then recs else s.blockRecommendations);
      var s2 := s1.(effects := s1.effects + [StorageSet(SettingsPatch(None, s1.blockAds, s1.blockRecommendations))]);
      if s2.enabled {
        ScanAllAdvances(s2, DescendantsWithTag(s2.page, "ARTICLE"));
      }
    case _ =>
  }
}
