/**
 * The current content script's `InstagramBlocker`: a class whose fields its handlers update
 * in place. The page it works on and the calls it makes to the browser are fields too. Every
 * handler is proved to perform the transition of the same name in `ContentModel`, where
 * the properties of those transitions are proved.
 */
module Content {
  import opened Wrappers
  import opened Dom
  import opened DomUtils
  import opened Types
  import opened Chrome
  import Model = ContentModel

  class InstagramBlocker {
    var enabled: bool
    var blockAds: bool
    var blockRecommendations: bool
    var blockedCount: BlockedCount
    /** The identities of the articles already looked at (`processedPosts`). */
    var processedPosts: set<NodeId>
    var feedContainer: Option<NodeId>
    /** Whether `feedObserver` is set. */
    var feedObserverActive: bool
    /** Whether the body observer that waits for the feed is connected. */
    var waitingForFeed: bool
    /** The document as it now is. */
    var page: Node
    /** The storage writes and messages made so far, oldest first. */
    var effects: seq<Effect>

    function Snapshot(): Model.State
      reads this
    {
      Model.State(enabled, blockAds, blockRecommendations, blockedCount, processedPosts,
                  feedContainer, feedObserverActive, waitingForFeed, page, effects)
    }

    /** The field initialisers, on the page the script is injected into. */
    constructor(document: Node)
      ensures Snapshot() == Model.InitialState(document)
    {
      enabled := true;
      blockAds := true;
      blockRecommendations := true;
      blockedCount := BlockedCount(0, 0);
      processedPosts := {};
      feedContainer := None;
      feedObserverActive := false;
      waitingForFeed := false;
      page := document;
      effects := [];
    }

    /** `init()`: settings first, then the feed. `stored` is what storage answered, `None` when the read failed. */
    method Init(stored: Option<Settings>)
      modifies this
      ensures Snapshot() == Model.FindFeedAndObserve(Model.LoadSettings(old(Snapshot()), stored))
    {
      LoadSettings(stored);
      FindFeedAndObserve();
    }

    method LoadSettings(stored: Option<Settings>)
      modifies this
      ensures Snapshot() == Model.LoadSettings(old(Snapshot()), stored)
    {
      if stored.Some? {
        enabled := stored.value.enabled;
        blockAds := stored.value.blockAds;
        blockRecommendations := stored.value.blockRecommendations;
      }
    }

    /** The message listener: answers through the returned response, `None` when `sendResponse` is not called. */
    method HandleMessage(m: Message) returns (response: Option<Response>)
      modifies this
      ensures (Snapshot(), response) == Model.Handle(old(Snapshot()), m)
    {
      match m
      case GetStatus =>
        response := Some(StatusReply(StatusResponse(enabled, blockedCount)));
      case ToggleEnabled(e) =>
        enabled := e;
        effects := effects + [StorageSet(SettingsPatch(Some(enabled), None, None))];
        if enabled {
          ScanFeed();
        }
        response := Some(SuccessReply(SuccessResponse(true)));
      case UpdateSettings(ads, recs) =>
        blockAds := ads.GetOr(blockAds);
        blockRecommendations := recs.GetOr(blockRecommendations);
        effects := effects + [StorageSet(SettingsPatch(None, Some(blockAds), Some(blockRecommendations)))];
        ScanFeed();
        response := Some(SuccessReply(SuccessResponse(true)));
      case GetBlockedCount =>
        response := Some(CountReply(blockedCount));
      case PostBlocked(_, _) =>
        response := None;
      case GetGlobalCount =>
        response := None;
    }

    method FindFeedAndObserve()
      modifies this
      ensures Snapshot() == Model.FindFeedAndObserve(old(Snapshot()))
    {
      feedContainer := Model.FindFeed(page);
      if feedContainer.Some? {
        ObserveFeed();
        ScanFeed();
      } else {
        waitingForFeed := true;
      }
    }

    /** The body observer's callback. */
    method OnBodyMutation()
      requires waitingForFeed
      modifies this
      ensures Snapshot() == Model.BodyMutation(old(Snapshot()))
    {
      var feed := Model.FindFeed(page);
      if feed.Some? {
        feedContainer := feed;
        waitingForFeed := false;
        ObserveFeed();
        ScanFeed();
      }
    }

    /** The 30-second timer: the body observer is disconnected whether or not it found the feed. */
    method StopWaitingForFeed()
      modifies this
      ensures Snapshot() == old(Snapshot()).(waitingForFeed := false)
    {
      waitingForFeed := false;
    }

    method ObserveFeed()
      modifies this
      ensures Snapshot() == Model.ObserveFeed(old(Snapshot()))
    {
      if feedContainer.None? || feedObserverActive {
        return;
      }
      feedObserverActive := true;
    }

    /** The feed observer's callback, given the added nodes of all the records it receives, in order. */
    method OnFeedMutation(added: seq<Node>)
      requires feedObserverActive
      modifies this
      ensures Snapshot() == Model.Deliver(old(Snapshot()), added)
    {
      if !enabled {
        return;
      }
      ghost var s0 := Snapshot();
      var i := 0;
      while i < |added|
        invariant 0 <= i <= |added|
        invariant Snapshot() == Model.ProcessAll(s0, Model.ArticlesOfAdded(added[..i]))
      {
        ghost var done := Model.ArticlesOfAdded(added[..i]);
        assert added[..i + 1][..i] == added[..i];
        Model.ProcessAllAppend(s0, done, Model.ArticlesOfNode(added[i]));
        ProcessAddedNode(added[i]);
        i := i + 1;
      }
      assert added[..i] == added;
    }

    /** One added node: the node itself if it is an article, then each article inside it. */
    method ProcessAddedNode(node: Node)
      modifies this
      ensures Snapshot() == Model.ProcessAll(old(Snapshot()), Model.ArticlesOfNode(node))
    {
      if !node.Element? {
        return;
      }
      ghost var s0 := Snapshot();
      ghost var own: seq<Node> := [];
      if node.tagName == "ARTICLE" {
        Model.ProcessAllSnoc(s0, [], node);
        ProcessArticle(node);
        own := [node];
      }
      var articles := DescendantsWithTag(node, "ARTICLE");
      Model.ProcessAllAppend(s0, own, articles);
      ProcessEach(articles);
    }

    /** `scanFeed()`. */
    method ScanFeed()
      modifies this
      ensures Snapshot() == Model.Scan(old(Snapshot()))
    {
      if !enabled {
        return;
      }
      var articles := Model.ArticlesToScan(Snapshot());
      ProcessEach(articles);
    }

    /** `processArticle` on each article of a list, in order (the loops of `scanFeed` and of the feed observer). */
    method ProcessEach(articles: seq<Node>)
      requires AllElements(articles)
      modifies this
      ensures Snapshot() == Model.ProcessAll(old(Snapshot()), articles)
    {
      ghost var s0 := Snapshot();
      var i := 0;
      while i < |articles|
        invariant 0 <= i <= |articles|
        invariant Snapshot() == Model.ProcessAll(s0, articles[..i])
      {
        assert articles[..i + 1] == articles[..i] + [articles[i]];
        Model.ProcessAllSnoc(s0, articles[..i], articles[i]);
        ProcessArticle(articles[i]);
        i := i + 1;
      }
      assert articles[..i] == articles;
    }

    /** `processArticle(article)`. */
    method ProcessArticle(article: Node)
      requires article.Element?
      modifies this
      ensures Snapshot() == Model.Process(old(Snapshot()), article)
    {
      if article.id in processedPosts {
        return;
      }
      processedPosts := processedPosts + {article.id};
      if blockAds {
        var sponsored := IsSponsored(article);
        if sponsored {
          HideArticle(article, Ad);
          return;
        }
      }
      if blockRecommendations {
        var recommended := IsRecommended(article);
        if recommended {
          HideArticle(article, Recommendation);
        }
      }
    }

    /** `isSponsored(article)`. */
    method IsSponsored(article: Node) returns (r: bool)
      ensures r == Model.IsSponsored(article)
    {
      r := HeaderHasKeyword(article, Model.SponsoredKeywords);
    }

    /** `isRecommended(article)`. */
    method IsRecommended(article: Node) returns (r: bool)
      ensures r == Model.IsRecommended(article)
    {
      r := HeaderHasKeyword(article, Model.RecommendedKeywords);
    }

    /**
     * The tree walk both checks run: over the text leaves of the article's first element
     * child, stop at the first whose trimmed text is one of `keywords`.
     */
    static method HeaderHasKeyword(article: Node, keywords: seq<string>) returns (r: bool)
      ensures r <==> FirstElementChild(article).Some? && SomeLeafIsKeyword(FirstElementChild(article).value, keywords)
    {
      var header := FirstElementChild(article);
      if header.None? {
        return false;
      }
      var leaves := TextLeaves(header.value);
      var i := 0;
      while i < |leaves|
        invariant 0 <= i <= |leaves|
        invariant FirstTextMatch(leaves[i..], keywords) == FirstTextMatch(leaves, keywords)
      {
        var text := Strings.Trim(leaves[i]);
        if IsKeyword(text, keywords) {
          return true;
        }
        assert leaves[i..][1..] == leaves[i + 1..];
        i := i + 1;
      }
      return false;
    }

    /** `hideArticle(article, t)`. */
    method HideArticle(article: Node, t: BlockedType)
      requires article.Element?
      modifies this
      ensures Snapshot() == Model.Hide(old(Snapshot()), article, t)
    {
      var live := FindById(page, article.id);
      if live.Some? {
        var el := live.value;
        var children := el.children;
        var hidden: seq<Node> := [];
        var i := 0;
        while i < |children|
          invariant 0 <= i <= |children|
          invariant |hidden| == i
          invariant forall j :: 0 <= j < i ==> hidden[j] == Model.HideChild(children[j])
        {
          hidden := hidden + [Model.HideChild(children[i])];
          i := i + 1;
        }
        assert hidden == Model.HideChildren(children);
        var attributes := el.attributes["data-blocked-by" := "ig-blocker"]["data-blocked-type" := BlockedTypeName(t)];
        var placeholder := Model.Placeholder(blockedCount.Total(), t);
        page := Replace(page, article.id, el.(attributes := attributes, children := [placeholder] + hidden));
      }
      if t == Ad {
        blockedCount := blockedCount.(ads := blockedCount.ads + 1);
      } else {
        blockedCount := blockedCount.(recommendations := blockedCount.recommendations + 1);
      }
      effects := effects + [SendMessage(PostBlocked(t, blockedCount))];
    }

    /** The site changes the page (new posts loaded, posts removed); the controller only sees it through its observers. */
    method SiteUpdatesPage(document: Node)
      modifies this
      ensures Snapshot() == old(Snapshot()).(page := document)
    {
      page := document;
    }
  }
}
