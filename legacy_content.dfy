/**
 * The older content script's `InstagramBlocker` as a class whose handlers update its fields
 * in place. Each handler and each search is proved to compute the function of the same name
 * in `LegacyModel`, where their properties are proved.
 */
module LegacyContent {
  import opened Wrappers
  import opened Strings
  import opened Dom
  import opened DomUtils
  import opened Types
  import opened Chrome
  import Model = LegacyModel

  class InstagramBlocker {
    var enabled: bool
    /** `undefined` (`None`) until settings load. */
    var blockAds: Option<bool>
    var blockRecommendations: Option<bool>
    var blockedCount: BlockedCount
    /** The identities of the articles already processed (the `WeakSet`). */
    var processedPosts: set<NodeId>
    /** Whether the debounce timer `scanTimeout` is set. */
    var scanPending: bool
    /** The document as it now is. */
    var page: Node
    /** The storage writes and messages made so far, oldest first. */
    var effects: seq<Effect>

    function Snapshot(): Model.State
      reads this
    {
      Model.State(enabled, blockAds, blockRecommendations, blockedCount, processedPosts, scanPending, page, effects)
    }

    /** The field assignments of the constructor, on the page the script is injected into. */
    constructor(document: Node)
      ensures Snapshot() == Model.InitialState(document)
    {
      enabled := true;
      blockAds := None;
      blockRecommendations := None;
      blockedCount := BlockedCount(0, 0);
      processedPosts := {};
      scanPending := false;
      page := document;
      effects := [];
    }

    /** `init()`: load the settings, then one scan. `stored` is what storage answered, `None` when the read failed. */
    method Init(stored: Option<Settings>)
      modifies this
      ensures Snapshot() == Model.Init(old(Snapshot()), stored)
    {
      LoadSettings(stored);
      ScanAndBlock();
    }

    /** `loadSettings()`. */
    method LoadSettings(stored: Option<Settings>)
      modifies this
      ensures Snapshot() == Model.LoadSettings(old(Snapshot()), stored)
    {
      if stored.Some? {
        enabled := stored.value.enabled;
        blockAds := Some(stored.value.blockAds);
        blockRecommendations := Some(stored.value.blockRecommendations);
      }
    }

    /** `handleMessage(message, sendResponse)`; the answer is the argument given to `sendResponse`, `None` when it is not called. */
    method HandleMessage(m: Message) returns (response: Option<Response>)
      modifies this
      ensures (Snapshot(), response) == Model.Handle(old(Snapshot()), m)
    {
      match m
      case GetStatus =>
        response := Some(StatusReply(StatusResponse(enabled, blockedCount)));
      case ToggleEnabled(e) =>
        enabled := e;
        effects := effects + [StorageSet(SettingsPatch(Some(enabled), None, None))];
        if enabled {
          ScanAndBlock();
        }
        response := Some(SuccessReply(SuccessResponse(true)));
      case UpdateSettings(ads, recs) =>
        if ads.Some? {
          blockAds := ads;
        }
        if recs.Some? {
          blockRecommendations := recs;
        }
        effects := effects + [StorageSet(SettingsPatch(None, blockAds, blockRecommendations))];
        ScanAndBlock();
        response := Some(SuccessReply(SuccessResponse(true)));
      case GetBlockedCount =>
        response := Some(CountReply(blockedCount));
      case PostBlocked(_, _) =>
        response := None;
      case GetGlobalCount =>
        response := None;
    }

    /** The mutation observer's callback: unless disabled, (re)arm the debounce timer. */
    method OnMutation()
      modifies this
      ensures Snapshot() == Model.OnMutation(old(Snapshot()))
    {
      if !enabled {
        return;
      }
      scanPending := true;
    }

    /** The debounce timer fires. */
    method OnScanTimer()
      modifies this
      ensures Snapshot() == Model.OnScanTimer(old(Snapshot()))
    {
      scanPending := false;
      ScanAndBlock();
    }

    /** `scanAndBlock()`: every `article` of the document, each processed once. */
    method ScanAndBlock()
      modifies this
      ensures Snapshot() == Model.Scan(old(Snapshot()))
    {
      if !enabled {
        return;
      }
      var articles := DescendantsWithTag(page, "ARTICLE");
      ScanEach(articles);
    }

    /** The `forEach` of `scanAndBlock`. */
    method ScanEach(articles: seq<Node>)
      requires AllElements(articles)
      modifies this
      ensures Snapshot() == Model.ScanAll(old(Snapshot()), articles)
    {
      ghost var s0 := Snapshot();
      var i := 0;
      while i < |articles|
        invariant 0 <= i <= |articles|
        invariant Snapshot() == Model.ScanAll(s0, articles[..i])
      {
        assert articles[..i + 1] == articles[..i] + [articles[i]];
        Model.ScanAllSnoc(s0, articles[..i], articles[i]);
        ScanOne(articles[i]);
        i := i + 1;
      }
      assert articles[..i] == articles;
    }

    /** One iteration of the `forEach`: skip a processed article, else process and mark it. */
    method ScanOne(article: Node)
      requires article.Element?
      modifies this
      ensures Snapshot() == Model.ScanStep(old(Snapshot()), article)
    {
      if article.id !in processedPosts {
        ProcessPost(article);
        processedPosts := processedPosts + {article.id};
      }
    }

    /** `processPost(article)`. */
    method ProcessPost(article: Node)
      requires article.Element?
      modifies this
      ensures Snapshot() == Model.ProcessPost(old(Snapshot()), article)
    {
      var sponsored := IsSponsored(article);
      if blockAds == Some(true) && sponsored {
        HidePost(article, Ad);
        return;
      }
      var recommended := IsRecommended(article);
      if blockRecommendations == Some(true) && recommended {
        HidePost(article, Recommendation);
        return;
      }
    }

    /** `isSponsored(article)`: the three checks in order, each returning at its first hit. */
    static method IsSponsored(article: Node) returns (r: bool)
      ensures r == Model.IsSponsored(article)
    {
      r := LabelledSpanOrLink(article);
      if r {
        return;
      }
      r := SponsoredAriaLabel(article);
      if r {
        return;
      }
      r := LabelledLeafSpan(article);
    }

    /** Method 1: the `span, a` loop. */
    static method LabelledSpanOrLink(article: Node) returns (r: bool)
      ensures r == Model.LabelledSpanOrLink(article)
    {
      var es := DescendantElements(article);
      var i := 0;
      while i < |es|
        invariant 0 <= i <= |es|
        invariant forall j :: 0 <= j < i ==> !(Model.IsSpanOrLink(es[j]) && HasKeywordText(es[j], Model.SponsoredKeywords))
      {
        if Model.IsSpanOrLink(es[i]) && IsKeyword(Trim(TextContent(es[i])), Model.SponsoredKeywords) {
          return true;
        }
        i := i + 1;
      }
      return false;
    }

    /** Method 2: the `[aria-label]` loop. */
    static method SponsoredAriaLabel(article: Node) returns (r: bool)
      ensures r == Model.SponsoredAriaLabel(article)
    {
      r := SomeAriaLabelMentions(article, Model.SponsoredKeywords);
    }

    static method SomeAriaLabelMentions(article: Node, keywords: seq<string>) returns (r: bool)
      ensures r == Model.SomeAriaLabelMentions(article, keywords)
    {
      var es := DescendantElements(article);
      var i := 0;
      while i < |es|
        invariant 0 <= i <= |es|
        invariant forall j :: 0 <= j < i && Model.HasAriaLabel(es[j])
                    ==> !Model.MentionsKeyword(es[j].attributes["aria-label"], keywords)
      {
        if Model.HasAriaLabel(es[i]) {
          var mentions := MentionsKeyword(es[i].attributes["aria-label"], keywords);
          if mentions {
            return true;
          }
        }
        i := i + 1;
      }
      return false;
    }

    /** Method 3: the loop over spans without element children. */
    static method LabelledLeafSpan(article: Node) returns (r: bool)
      ensures r == Model.LabelledLeafSpan(article)
    {
      var es := DescendantElements(article);
      var i := 0;
      while i < |es|
        invariant 0 <= i <= |es|
        invariant forall j :: 0 <= j < i ==> !(HasTag(es[j], "SPAN") && ElementChildren(es[j].children) == []
                                              && HasKeywordText(es[j], Model.SponsoredKeywords))
      {
        if HasTag(es[i], "SPAN") && ElementChildren(es[i].children) == [] {
          if IsKeyword(Trim(TextContent(es[i])), Model.SponsoredKeywords) {
            return true;
          }
        }
        i := i + 1;
      }
      return false;
    }

    /** The `some` over the keywords in the `aria-label` check. */
    static method MentionsKeyword(ariaLabel: string, keywords: seq<string>) returns (r: bool)
      ensures r == Model.MentionsKeyword(ariaLabel, keywords)
    {
      var lower := ToLower(ariaLabel);
      var k := 0;
      while k < |keywords|
        invariant 0 <= k <= |keywords|
        invariant forall j :: 0 <= j < k ==> !Includes(lower, ToLower(keywords[j]))
      {
        if Includes(lower, ToLower(keywords[k])) {
          return true;
        }
        k := k + 1;
      }
      return false;
    }

    /** `isRecommended(article)`: up to five ancestors, then the article's `header`. */
    method IsRecommended(article: Node) returns (r: bool)
      requires article.Element?
      ensures r == Model.IsRecommended(page, article)
    {
      var chain := ParentChain(page, article.id);
      ghost var walked := Model.Walked(chain);
      var depth := 0;
      while depth < |chain| && depth < Model.MaxDepth
        invariant 0 <= depth <= |chain| && depth <= Model.MaxDepth
        invariant forall d, k :: 0 <= d < depth && 0 <= k < |Model.RecommendedKeywords|
                    ==> !Model.LabelsArticle(chain[d], article.id, Model.RecommendedKeywords[k])
      {
        var parent := chain[depth];
        var labelled := LabelsArticle(parent, article);
        if labelled {
          assert walked[depth] == parent;
          return true;
        }
        depth := depth + 1;
      }
      assert walked == chain[..depth];
      var header := QuerySelector(article, "HEADER");
      if header.Some? {
        var headerText := TextContent(header.value);
        var k := 0;
        while k < |Model.RecommendedKeywords|
          invariant 0 <= k <= |Model.RecommendedKeywords|
          invariant forall j :: 0 <= j < k ==> !Includes(headerText, Model.RecommendedKeywords[j])
        {
          if Includes(headerText, Model.RecommendedKeywords[k]) {
            return true;
          }
          k := k + 1;
        }
      }
      return false;
    }

    /** The inner loop of the walk: some banner is in the ancestor's text and in the text of its children before the article. */
    static method LabelsArticle(parent: Node, article: Node) returns (r: bool)
      requires parent.Element? && article.Element?
      ensures r <==> exists k :: 0 <= k < |Model.RecommendedKeywords|
                       && Model.LabelsArticle(parent, article.id, Model.RecommendedKeywords[k])
    {
      var parentText := TextContent(parent);
      var k := 0;
      while k < |Model.RecommendedKeywords|
        invariant 0 <= k <= |Model.RecommendedKeywords|
        invariant forall j :: 0 <= j < k ==> !Model.LabelsArticle(parent, article.id, Model.RecommendedKeywords[j])
      {
        var keyword := Model.RecommendedKeywords[k];
        if Includes(parentText, keyword) {
          var siblingText := GetSiblingText(article, parent);
          if Includes(siblingText, keyword) {
            assert Model.LabelsArticle(parent, article.id, keyword);
            return true;
          }
        }
        k := k + 1;
      }
      return false;
    }

    /** `getSiblingText(article, container)`: the children's text up to the one that is or holds the article. */
    static method GetSiblingText(article: Node, container: Node) returns (text: string)
      requires article.Element? && container.Element?
      ensures text == Model.SiblingText(article.id, container)
    {
      text := PrecedingText(ElementChildren(container.children), article.id);
    }

    /** The loop of `getSiblingText`: concatenate the children's text until one is or holds `id`. */
    static method PrecedingText(children: seq<Node>, id: NodeId) returns (text: string)
      ensures text == Model.SiblingTextOf(children, id)
    {
      text := "";
      var i := 0;
      while i < |children| && !ContainsId(children[i], id)
        invariant 0 <= i <= |children|
        invariant text == TextContentSeq(children[..i])
        invariant forall j :: 0 <= j < i ==> !ContainsId(children[j], id)
      {
        TextContentPrefixStep(children, i);
        text := text + TextContent(children[i]);
        i := i + 1;
      }
      Model.SiblingTextStopsAt(children, id, i);
    }

    /** `hidePost(article, t)`: mark the container, count, notify. */
    method HidePost(article: Node, t: BlockedType)
      requires article.Element?
      modifies this
      ensures Snapshot() == Model.HidePost(old(Snapshot()), article, t)
    {
      var container := FindPostContainer(article);
      var live := FindById(page, container.id);
      if live.Some? {
        page := Replace(page, container.id, Model.MarkHidden(live.value, t));
      }
      if t == Ad {
        blockedCount := blockedCount.(ads := blockedCount.ads + 1);
      } else {
        blockedCount := blockedCount.(recommendations := blockedCount.recommendations + 1);
      }
      effects := effects + [SendMessage(PostBlocked(t, blockedCount))];
    }

    /** `findPostContainer(article)`: walk up to the first `main` or `section`, keeping the last box met. */
    method FindPostContainer(article: Node) returns (container: Node)
      requires article.Element?
      ensures container == Model.ContainerOf(page, article)
    {
      var chain := ParentChain(page, article.id);
      container := article;
      var i := 0;
      while i < |chain|
        invariant 0 <= i <= |chain|
        invariant Model.PostContainer(chain[i..], container) == Model.PostContainer(chain, article)
      {
        var parent := chain[i];
        if Model.StopsWalk(parent) {
          break;
        }
        if Model.PostBox(parent) {
          container := parent;
        }
        assert chain[i..][1..] == chain[i + 1..];
        i := i + 1;
      }
    }

    /** The page changes under the script (new posts loaded, and so on); only `page` moves. */
    method SiteUpdatesPage(document: Node)
      modifies this
      ensures Snapshot() == old(Snapshot()).(page := document)
    {
      page := document;
    }
  }
}
