# Instagram ad and recommendation blocker, modelled in Dafny

The extension hides sponsored and "suggested for you" posts in the Instagram feed. This
project models its core:

- the text-search helpers that look for a keyword among a header's text leaves or among its
  clickable elements;
- the three keyword tables;
- the two detectors, and the `Detector` interface they implement;
- the content-script controller `InstagramBlocker`, in both versions (`content.ts` and the
  older `content.js`): its settings, the set of processed posts, the blocked counters,
  classification, hiding, scanning, mutation handling and the popup's messages;
- the background service worker: the global count it keeps and the badge it shows;
- the message and settings types they exchange.

The page is a value tree (`Dom.Node`). A node is a text leaf or an element. An element has a
tag, attributes, classes, a `display: none` flag, a flag for a flex or grid computed layout,
and ordered children. An element's identity is a `NodeId`. `textContent`, the `TreeWalker`
over text leaves, `querySelector(All)`, `parentElement`, `children` and `contains` are
functions on that tree.

Each controller is a class whose methods update its fields in place (`Content`,
`LegacyContent`, `Background`). Each has a companion module of pure transitions (`ContentModel`,
`LegacyModel`, `BackgroundModel`). Every method is proved to perform the transition of the
same name, so it keeps the invariants proved about that transition. The searches are loop
methods proved against recursive or existential specification functions. Calls into the
browser (storage writes, `sendMessage`, badge updates) are recorded as a sequence of effects
in the state.

Three behaviours of the code are worth noting, and the model follows the code:

- `content.ts` does not call `AdDetector` or `SuggestionDetector`. Its `isSponsored` and
  `isRecommended` are its own header searches over its own keyword lists. Its recommendation
  check has no Follow-button tier: `ContentModel.RecommendedImpliesSuggestion` and
  `ContentModel.FollowButtonAloneNotRecommended` relate the two.
- In `content.js` the flags `blockAds` and `blockRecommendations` are `undefined` until
  settings load. They are modelled as `Option<bool>`, and an `undefined` flag blocks nothing.
- `UPDATE_SETTINGS` never re-examines posts already processed.

## Model

| member | source | states |
|---|---|---|
| Strings.TrimIsCore | src/utils/dom-utils.ts:29 | `trim` removes exactly a leading and a trailing run of ECMAScript white space, and what is left starts and ends with non-white space (or is empty) |
| Strings.TrimFixedIff | src/utils/dom-utils.ts:29 | a string equals its own trim iff it is empty or neither starts nor ends with white space |
| Strings.TrimIdempotent | src/utils/dom-utils.ts:29 | trimming twice is trimming once |
| Strings.IncludesIff | src/content/content.js:214 | `s.includes(p)` holds iff `p` occurs in `s` at some position |
| Strings.IncludesPiece | src/content/content.js:232 | a string includes every piece it is built around |
| Strings.LowerChar | src/content/content.js:181 | an ASCII capital becomes the small letter 32 code points above it; every other character is unchanged |
| Strings.ToLower | src/content/content.js:181 | lower-casing keeps the length and maps each character on its own (ASCII letters folded) |
| Strings.ToLowerAppend | src/content/content.js:181 | lower-casing distributes over concatenation |
| Dom.ElementChildren | src/content/content.js:243 | `children`: holds every element child and nothing else, and is no longer than the child nodes |
| Dom.ElementChildrenAppend | src/content/content.js:243 | the element children of two adjacent runs of child nodes are those of the first run followed by those of the second, so document order is kept |
| Dom.ElementChildrenOfRuns | src/content/content.js:243 | a run of elements is its own element-children list and a run of text nodes contributes none |
| Dom.FirstElementChild | src/content/detectors/ad-detector.ts:18 | `firstElementChild`: absent iff there is no element child, else the first of them |
| Dom.DescendantElements | src/content/content.js:167 | `querySelectorAll` candidates: every one is an element |
| Dom.DescendantElementsAppend | src/content/content.js:167 | the descendants of two adjacent runs of nodes are those of the first run followed by those of the second |
| Dom.DescendantElementsPreorder | src/content/content.js:167 | document order: each element of a run appears, directly followed by all its own descendants, right after the descendants of the nodes before it |
| Dom.ParentChain | src/content/content.js:205-223 | the `parentElement` chain of an element inside the document; its meaning is stated by `Dom.ParentChainIsAncestry` |
| Dom.ParentChainIsAncestry | src/content/content.js:205-223 | for an element inside the document the chain holds only elements, nearest first: the first has the element as a child, each one has the one before it as a child, and the last is a child of the document root |
| Dom.FindById | src/content/content.ts:297-333 | the element with an identity, when found, has that identity |
| Dom.DescendantsWithTag | src/content/content.js:137 | `querySelectorAll(tag)`: every result has the tag |
| Dom.QuerySelector | src/content/content.ts:137-141 | `querySelector(tag)`: absent iff no descendant has the tag, else the first in document order |
| Dom.ReplaceThenFind | src/content/content.ts:297-333 | after an element is updated in place, looking it up gives the new element |
| Dom.ReplaceElsewhereUnchanged | src/content/content.ts:297-333 | updating an identity the tree does not contain leaves the tree as it was |
| Dom.ReplaceKeepsOtherLookups | src/content/content.ts:297-333 | updating one element leaves the lookup of every identity that is neither inside it, nor inside its new form, nor an ancestor of it, as it was |
| Dom.ParentOfFirstIsParent | src/content/content.ts:137-141 | the parent found for a tag has the first descendant with that tag among its children and is the root or one of its descendant elements |
| Types.Bump | src/content/content.ts:336-340 | `blockedCount.ads++` or `.recommendations++`: exactly the counter for the type goes up by one, the other is unchanged |
| Types.ParseBlockedType | src/types/index.ts:17 | only `'ad'` and `'recommendation'` name a blocked type |
| Types.BlockedTypeNameRoundTrip | src/types/index.ts:17 | the two names and the two types are in one-to-one correspondence |
| Types.MessageTypeOf | src/types/index.ts:20-26 | every message has one of the six `type` tags |
| Types.MessageTypeDiscriminates | src/types/index.ts:61-67 | two messages have the same tag iff they are the same variant |
| Types.MessageTypesExactlySix | src/types/index.ts:20-26 | there are exactly six distinct tags, and each is used by a variant |
| Chrome.ApplyPatch | src/content/content.ts:107-120 | `storage.sync.set` with some keys changes exactly those keys |
| Keywords.TableSizes | src/content/detectors/index.ts:12-51 | the tables have 9, 9 and 6 distinct entries, led by "Sponsored", "Follow" and "Suggested for you" |
| Keywords.TrimmedIsReachable | src/content/detectors/index.ts:12-51 | a non-empty keyword without surrounding white space equals its own trim |
| Keywords.KeywordsReachable | src/content/detectors/index.ts:12-51 | every entry of every table can be matched by the trimmed-equality test |
| Keywords.TablesDisjoint | src/content/detectors/index.ts:12-51 | no keyword is in two tables |
| DomUtils.FirstKeywordLeaf | src/utils/dom-utils.ts:27-33 | the position of the first leaf whose trim is a keyword, every earlier leaf failing the test |
| DomUtils.FirstTextMatch | src/utils/dom-utils.ts:21-36 | the result is null or a non-empty member of `keywords`; null iff no leaf's trim is a keyword |
| DomUtils.FirstTextMatchIsFirst | src/utils/dom-utils.ts:27-33 | a non-null result is the trimmed text of the first matching leaf |
| DomUtils.FindTextInElement | src/utils/dom-utils.ts:21-36 | the `TreeWalker` loop returns the first match over the element's text leaves in document order, and changes nothing |
| DomUtils.BlankLeafNeverMatches | src/utils/dom-utils.ts:30 | a blank leaf never matches (the `text &&` guard) |
| DomUtils.NoKeywordsNoMatch | src/utils/dom-utils.ts:27-35 | with no keywords the result is null |
| DomUtils.ExactMatchNotContainment | src/utils/dom-utils.ts:29-30 | "Suggested for you today" does not match, a padded "Suggested for you" does |
| DomUtils.ClickablesIn | src/utils/dom-utils.ts:13 | the selector keeps only `button`, `[role="button"]` and `[tabindex="0"]` elements |
| DomUtils.FirstClickableMatch | src/utils/dom-utils.ts:46-60 | the result is null or a clickable whose trimmed text is a keyword; null iff no clickable qualifies |
| DomUtils.FirstClickableMatchIsFirst | src/utils/dom-utils.ts:52-57 | a non-null result is the first qualifying clickable in document order |
| DomUtils.ClickablesKeepFirstMatch | src/utils/dom-utils.ts:50-57 | filtering by the selector first gives the same first match |
| DomUtils.FindClickableWithText | src/utils/dom-utils.ts:46-60 | the `for...of` loop returns that first match, and changes nothing |
| AdDetection.Detect | src/content/detectors/ad-detector.ts:17-29 | an ad iff there is a first element child and one of its text leaves is exactly a sponsored keyword |
| AdDetection.NoHeaderNoAd | src/content/detectors/ad-detector.ts:18-19 | an article without element children is never an ad |
| AdDetection.OnlyHeaderSearched | src/content/detectors/ad-detector.ts:18-21 | whatever follows the first element child does not change the verdict |
| AdDetection.CaptionLabelIgnored | src/content/detectors/ad-detector.ts:18-21 | "Sponsored" in the caption alone is not detected |
| AdDetection.SponsoredHeaderDetected | src/content/detectors/ad-detector.ts:21-25 | "Sponsored" in the header is detected |
| SuggestionDetection.HasFollowButton | src/content/detectors/suggestion-detector.ts:47-49 | true iff some clickable in the header has exactly a Follow keyword as its text |
| SuggestionDetection.HasSuggestedText | src/content/detectors/suggestion-detector.ts:55-64 | true iff some header leaf is exactly a suggested-text keyword |
| SuggestionDetection.Detect | src/content/detectors/suggestion-detector.ts:25-41 | a recommendation iff there is a header and it has a Follow button or suggested text |
| SuggestionDetection.NoHeaderNoRecommendation | src/content/detectors/suggestion-detector.ts:26-27 | an article without element children is never a recommendation |
| SuggestionDetection.FollowButtonSuffices | src/content/detectors/suggestion-detector.ts:30-33 | a Follow button in the header decides, whatever else is there |
| SuggestionDetection.TextFallback | src/content/detectors/suggestion-detector.ts:36-38 | without a Follow button the verdict is exactly the suggested-text test |
| SuggestionDetection.FollowButtonDetected | src/content/detectors/suggestion-detector.ts:30-33 | a `role="button"` "Follow" in the header is detected |
| SuggestionDetection.EmbeddedSuggestedTextIgnored | src/content/detectors/suggestion-detector.ts:55-64 | "Suggested for you today" is not suggested text |
| Detectors.Detector.Type | src/types/index.ts:89-92 | the ad detector's type is `'ad'`, the other's `'recommendation'` |
| Detectors.Detector.Detect | src/types/index.ts:82-87 | `detect` of each detector is that detector's verdict, defined on every article |
| Detectors.DetectorTypes | src/content/detectors/ad-detector.ts:11 | the two detectors cover the two blocked types |
| ContentModel.ControllerKeywordsAreTables | src/content/content.ts:31-51 | the controller's own lists equal the sponsored and suggested-text tables |
| ContentModel.IsSponsored | src/content/content.ts:250-268 | sponsored iff there is a first element child with a leaf that is exactly a sponsored keyword |
| ContentModel.IsRecommended | src/content/content.ts:274-292 | recommended iff there is a first element child with a leaf that is exactly a suggested-text keyword |
| ContentModel.SponsoredIsAdDetector | src/content/content.ts:250-268 | the controller's sponsored check agrees with `AdDetector.detect` |
| ContentModel.RecommendedImpliesSuggestion | src/content/content.ts:274-292 | the controller's check implies `SuggestionDetector.detect`, and is exactly its text tier |
| ContentModel.FollowButtonAloneNotRecommended | src/content/content.ts:274-292 | a header with only a Follow button is a suggestion for the detector but not for the controller |
| ContentModel.Placeholder | src/content/content.ts:305-322 | the placeholder is a new element with the placeholder class whose text is the label for the type |
| ContentModel.HideChild | src/content/content.ts:328-330 | an element child is kept with its identity, tag and children and set to `display: none`; text is unchanged |
| ContentModel.HideChildren | src/content/content.ts:325-330 | every child is kept, in order, and hidden |
| ContentModel.HideChildrenKeepsText | src/content/content.ts:325-330 | hiding changes no text |
| ContentModel.CollapseShape | src/content/content.ts:308-333 | the collapsed article keeps its identity, tag and classes, starts with the placeholder and then holds every original child, in order, hidden |
| ContentModel.CollapseAttributes | src/content/content.ts:301-302 | the collapsed article carries `data-blocked-by` and a `data-blocked-type` that reads back as the type, and keeps every other attribute |
| ContentModel.CollapseKeepsText | src/content/content.ts:322-333 | the collapsed article's text is the label followed by the original text |
| ContentModel.HideFacts | src/content/content.ts:297-352 | hiding bumps exactly the type's counter, sends one `POST_BLOCKED` with the new count, turns the article in the page into its collapsed form (an article no longer in the page leaves the page alone), and keeps the settings, the processed set and the feed fields |
| ContentModel.HideChildrenContains | src/content/content.ts:325-330 | hiding the children keeps exactly the identities inside them |
| ContentModel.CollapseContains | src/content/content.ts:305-333 | the collapsed article holds exactly the identities it held before plus the placeholder's |
| ContentModel.HideLeavesRestOfPage | src/content/content.ts:297-333 | hiding changes the page only at the article: the lookup of every identity other than the new placeholder's, outside the article and not one of its ancestors, is as it was |
| ContentModel.Classify | src/content/content.ts:235-243 | `'ad'` iff ads are blocked and the post is sponsored; `'recommendation'` iff it is not hidden as an ad, recommendations are blocked and it is recommended |
| ContentModel.ProcessFacts | src/content/content.ts:230-244 | a processed article is skipped outright; otherwise it is marked whether or not hidden, and hidden at most once under `Classify`'s type |
| ContentModel.AdsTakePriority | src/content/content.ts:235-238 | a post that is both is counted as an ad |
| ContentModel.ProcessProgress | src/content/content.ts:230-244 | one call keeps the settings, never lowers a counter and hides at most once |
| ContentModel.ProcessAllFacts | src/content/content.ts:224 | a batch keeps the settings; counters only rise, by at most one per newly processed article; only `POST_BLOCKED` messages are added |
| ContentModel.ProcessAllMarks | src/content/content.ts:224 | a batch marks exactly the articles it lists |
| ContentModel.ProcessAllSkipsProcessed | src/content/content.ts:231 | a batch of already processed articles changes nothing |
| ContentModel.ProcessAllIdempotent | src/content/content.ts:231-232 | the same batch twice is the batch once |
| ContentModel.ProcessAllAppend | src/content/content.ts:188-199 | processing two batches in turn is processing their concatenation |
| ContentModel.ArticlesToScan | src/content/content.ts:219-220 | the scan list holds only `article` elements, from the feed container or else the document |
| ContentModel.ScanFacts | src/content/content.ts:216-225 | disabled: nothing changes; enabled: every listed article ends up processed, settings kept, counters monotone |
| ContentModel.ArticlesOfNode | src/content/content.ts:190-199 | an added node yields itself if it is an article, then its `article` descendants |
| ContentModel.ArticlesOfAdded | src/content/content.ts:188-199 | a delivery yields only `article` elements |
| ContentModel.DeliverFacts | src/content/content.ts:185-203 | the feed callback does nothing while disabled; otherwise it marks every delivered article, is idempotent and keeps the settings |
| ContentModel.FindFeed | src/content/content.ts:135-146 | a feed is found iff the document has a `main` with an `article`, and then it is the identity of the `main` or of an element inside it that has the first `article` as a child |
| ContentModel.LoadSettings | src/content/content.ts:65-78 | a successful read sets the three settings; a failed read changes nothing |
| ContentModel.FindFeedAndObserveFacts | src/content/content.ts:134-177 | start-up observes the feed when there is one, else waits for it; the bookkeeping stays coherent |
| ContentModel.BodyMutationFacts | src/content/content.ts:158-167 | the body observer keeps waiting until the feed appears, then observes it and stops waiting |
| ContentModel.HandleQueries | src/content/content.ts:98-103 | `GET_STATUS` and `GET_BLOCKED_COUNT` answer and change nothing; the background's messages get no answer |
| ContentModel.HandleToggle | src/content/content.ts:105-112 | `TOGGLE_ENABLED` sets and stores the flag; off hides and counts nothing, on rescans |
| ContentModel.HandleUpdate | src/content/content.ts:114-123 | `UPDATE_SETTINGS` keeps each absent flag and takes each present one, leaves `enabled` untouched and answers success; then, while enabled, it rescans, so every article to scan ends up processed, and while disabled the page, counters and processed set are unchanged |
| ContentModel.UpdateDoesNotReclassify | src/content/content.ts:115-121 | once the feed is processed, enabling a category hides and counts nothing |
| ContentModel.HandleMonotone | src/content/content.ts:93-129 | no message lowers a counter or forgets a processed post |
| ContentModel.StoredAfterPosts | src/content/content.ts:343-349 | `POST_BLOCKED` messages do not touch storage |
| ContentModel.HandleKeepsStorageInSync | src/content/content.ts:105-121 | after any message, storage holds exactly the controller's settings if it did before |
| ContentModel.ToggleKeepsStorageInSync | src/content/content.ts:105-112 | `TOGGLE_ENABLED` writes exactly the new flag, so storage follows the controller |
| ContentModel.UpdateKeepsStorageInSync | src/content/content.ts:114-121 | `UPDATE_SETTINGS` writes the two resulting flags, so storage follows the controller |
| Content.InstagramBlocker.constructor | src/content/content.ts:21-28 | the field initialisers |
| Content.InstagramBlocker.Init | src/content/content.ts:57-63 | load the settings, then find the feed |
| Content.InstagramBlocker.LoadSettings | src/content/content.ts:65-78 | performs `ContentModel.LoadSettings` |
| Content.InstagramBlocker.HandleMessage | src/content/content.ts:93-129 | performs and answers as `ContentModel.Handle` |
| Content.InstagramBlocker.FindFeedAndObserve | src/content/content.ts:134-177 | performs `ContentModel.FindFeedAndObserve` |
| Content.InstagramBlocker.OnBodyMutation | src/content/content.ts:158-167 | performs `ContentModel.BodyMutation` |
| Content.InstagramBlocker.StopWaitingForFeed | src/content/content.ts:175 | the 30-second disconnect changes only the waiting flag |
| Content.InstagramBlocker.ObserveFeed | src/content/content.ts:182-211 | performs `ContentModel.ObserveFeed` |
| Content.InstagramBlocker.OnFeedMutation | src/content/content.ts:185-203 | the nested loops perform `ContentModel.Deliver` |
| Content.InstagramBlocker.ProcessAddedNode | src/content/content.ts:190-199 | one added node: processes exactly `ArticlesOfNode` in order |
| Content.InstagramBlocker.ScanFeed | src/content/content.ts:216-225 | performs `ContentModel.Scan` |
| Content.InstagramBlocker.ProcessEach | src/content/content.ts:224 | the `forEach` performs `ContentModel.ProcessAll` |
| Content.InstagramBlocker.ProcessArticle | src/content/content.ts:230-244 | performs `ContentModel.Process` |
| Content.InstagramBlocker.IsSponsored | src/content/content.ts:250-268 | the `TreeWalker` loop computes `ContentModel.IsSponsored` |
| Content.InstagramBlocker.IsRecommended | src/content/content.ts:274-292 | the `TreeWalker` loop computes `ContentModel.IsRecommended` |
| Content.InstagramBlocker.HeaderHasKeyword | src/content/content.ts:252-267 | true iff there is a header and one of its leaves is exactly a keyword |
| Content.InstagramBlocker.HideArticle | src/content/content.ts:297-352 | the `forEach` and the updates perform `ContentModel.Hide` |
| LegacyModel.LeafSpanCheckRedundant | src/content/content.js:167-198 | every span the third check accepts the first has already accepted, so `isSponsored` is the first two checks |
| LegacyModel.UpperCaseLabelMentionsSponsored | src/content/content.js:179-182 | "SPONSORED post" mentions "Sponsored" once both are lower-cased |
| LegacyModel.AriaLabelIsCaseInsensitiveContainment | src/content/content.js:177-185 | an `aria-label` "SPONSORED post" alone makes a post sponsored, though neither exact-text check accepts it |
| LegacyModel.FirstContaining | src/content/content.js:245-248 | the position of the first child that is or holds the article, every earlier child holding it not |
| LegacyModel.SiblingTextIsPrecedingText | src/content/content.js:241-253 | the sibling text is the text of exactly the children before the one holding the article, all of them if none does |
| LegacyModel.SiblingTextStopsAt | src/content/content.js:244-250 | a walk that stops at the first child holding the article has gathered exactly the sibling text |
| LegacyModel.Walked | src/content/content.js:205-209 | at most five ancestors are visited, nearest first |
| LegacyModel.WalkStopsAtFive | src/content/content.js:205-225 | ancestors beyond the fifth never change the verdict |
| LegacyModel.HeaderTierIsContainment | src/content/content.js:228-236 | a header containing "Suggested for you" among other words is a recommendation |
| LegacyModel.PostContainer | src/content/content.js:284-311 | the container is the article itself or one of its ancestors |
| LegacyModel.StopIndex | src/content/content.js:294-296 | the position of the first `main` or `section` ancestor |
| LegacyModel.PostContainerIsOutermostBox | src/content/content.js:284-311 | the container is the outermost flex or grid ancestor with at most three element children below the first `main` or `section`, else the article |
| LegacyModel.ContainerOf | src/content/content.js:258-260 | a container always exists and is an element |
| LegacyModel.MarkHidden | src/content/content.js:261-262 | the container keeps its identity and children, gains the hidden class, and its `data-blocked-type` reads back as the type |
| LegacyModel.HidePostFacts | src/content/content.js:255-282 | hiding always counts: exactly the type's counter rises, one message with the new count is sent, the container in the page is marked |
| LegacyModel.ProcessPostFacts | src/content/content.js:147-162 | an ad first when ads are on, else a recommendation when those are on, else nothing; at most one hide; nothing is marked here |
| LegacyModel.ScanStepFacts | src/content/content.js:139-144 | one iteration marks its article and hides at most once if it was new |
| LegacyModel.ScanAllMarks | src/content/content.js:139-144 | a scan marks exactly the articles it lists |
| LegacyModel.ScanAllAdvances | src/content/content.js:139-144 | a scan keeps the settings, never lowers a counter and hides at most once per new article |
| LegacyModel.ScanAllSkipsProcessed | src/content/content.js:140 | already processed articles are skipped |
| LegacyModel.ScanAllIdempotent | src/content/content.js:140-143 | each article is processed at most once |
| LegacyModel.ScanFacts | src/content/content.js:133-145 | disabled: nothing; enabled: every article of the document ends up processed |
| LegacyModel.UnsetFlagsBlockNothing | src/content/content.js:152-158 | while the flags are `undefined` a scan hides and counts nothing |
| LegacyModel.LoadSettings | src/content/content.js:66-79 | a successful read defines the two flags; a failed read changes nothing |
| LegacyModel.DebounceCoalesces | src/content/content.js:117-125 | a burst of mutations arms one timer; nothing happens while disabled |
| LegacyModel.HandleToggle | src/content/content.js:90-97 | `TOGGLE_ENABLED` sets the flag; off changes nothing else but the stored value, on rescans |
| LegacyModel.HandleUpdate | src/content/content.js:99-108 | `UPDATE_SETTINGS` keeps each absent flag, defined or not, and takes each present one; then, while enabled, it rescans, so exactly the document's articles join the processed set, and while disabled the page, counters and processed set are unchanged |
| LegacyModel.HandleMonotone | src/content/content.js:81-114 | no message lowers a counter or forgets a processed post; the queries change nothing |
| LegacyContent.InstagramBlocker.constructor | src/content/content.js:7-10 | the fields the constructor sets; the block flags are left undefined |
| LegacyContent.InstagramBlocker.Init | src/content/content.js:47-52 | load the settings, then one scan |
| LegacyContent.InstagramBlocker.LoadSettings | src/content/content.js:66-79 | performs `LegacyModel.LoadSettings` |
| LegacyContent.InstagramBlocker.HandleMessage | src/content/content.js:81-114 | performs and answers as `LegacyModel.Handle` |
| LegacyContent.InstagramBlocker.OnMutation | src/content/content.js:117-125 | performs `LegacyModel.OnMutation` |
| LegacyContent.InstagramBlocker.OnScanTimer | src/content/content.js:122-124 | the timer's scan performs `LegacyModel.OnScanTimer` |
| LegacyContent.InstagramBlocker.ScanAndBlock | src/content/content.js:133-145 | performs `LegacyModel.Scan` |
| LegacyContent.InstagramBlocker.ScanEach | src/content/content.js:139-144 | the `forEach` performs `LegacyModel.ScanAll` over the listed articles |
| LegacyContent.InstagramBlocker.ScanOne | src/content/content.js:140-143 | one iteration performs `LegacyModel.ScanStep` |
| LegacyContent.InstagramBlocker.ProcessPost | src/content/content.js:147-162 | performs `LegacyModel.ProcessPost` |
| LegacyContent.InstagramBlocker.IsSponsored | src/content/content.js:164-201 | the three checks in order compute `LegacyModel.IsSponsored` |
| LegacyContent.InstagramBlocker.LabelledSpanOrLink | src/content/content.js:167-174 | the first loop: some `span` or `a` has exactly a sponsored keyword as trimmed text |
| LegacyContent.InstagramBlocker.SponsoredAriaLabel | src/content/content.js:177-185 | the second loop: some `aria-label` mentions a sponsored keyword, ignoring case |
| LegacyContent.InstagramBlocker.SomeAriaLabelMentions | src/content/content.js:177-185 | the `[aria-label]` loop over any keyword list |
| LegacyContent.InstagramBlocker.LabelledLeafSpan | src/content/content.js:189-198 | the third loop: some span without element children has exactly a sponsored keyword as trimmed text |
| LegacyContent.InstagramBlocker.MentionsKeyword | src/content/content.js:180-182 | the `some` loop: the lower-cased label includes some lower-cased keyword |
| LegacyContent.InstagramBlocker.IsRecommended | src/content/content.js:203-239 | the `parent`/`depth` walk and the header loop compute `LegacyModel.IsRecommended` |
| LegacyContent.InstagramBlocker.LabelsArticle | src/content/content.js:212-221 | the keyword loop: some banner is in the ancestor's text and in the sibling text before the article |
| LegacyContent.InstagramBlocker.GetSiblingText | src/content/content.js:241-253 | computes `LegacyModel.SiblingText` |
| LegacyContent.InstagramBlocker.PrecedingText | src/content/content.js:244-250 | the accumulating loop computes the text of the children before the first that is or holds the article |
| LegacyContent.InstagramBlocker.HidePost | src/content/content.js:255-282 | performs `LegacyModel.HidePost` |
| LegacyContent.InstagramBlocker.FindPostContainer | src/content/content.js:284-311 | the upward walk computes `LegacyModel.ContainerOf` |
| BackgroundModel.NatToString | src/background/background.js:45 | `total.toString()`: non-empty decimal digits without a leading zero |
| BackgroundModel.DecimalRoundTrip | src/background/background.js:45 | the badge text reads back as the total |
| BackgroundModel.DecimalInjective | src/background/background.js:45 | different totals give different badge texts |
| BackgroundModel.OnInstalled | src/background/background.js:10-21 | only a fresh install writes the three default `true` settings |
| BackgroundModel.PostBlockedShowsTotal | src/background/background.js:38-53 | the reported count replaces the global one; a positive total is shown in decimal and red on the sender's tab; a zero total leaves the badges alone |
| BackgroundModel.BadgeReadsBackTotal | src/background/background.js:42-47 | the sender's badge reads back as `ads + recommendations` |
| BackgroundModel.LastReportWins | src/background/background.js:39 | after two reports the global count is the second, not the sum |
| BackgroundModel.OnMessageQueries | src/background/background.js:24-36 | `GET_GLOBAL_COUNT` answers with the count and changes nothing; other messages are ignored |
| BackgroundModel.NavigationAwayClearsBadge | src/background/background.js:56-62 | a finished load off Instagram blanks that tab's badge only, keeping the global count; unfinished or URL-less loads change nothing |
| BackgroundModel.InstagramPagesKeepBadge | src/background/background.js:58 | a URL containing `instagram.com` leaves the badge alone |
| Background.ServiceWorker.constructor | src/background/background.js:7 | the count starts at zero |
| Background.ServiceWorker.OnInstalled | src/background/background.js:10-21 | performs `BackgroundModel.OnInstalled` |
| Background.ServiceWorker.OnMessage | src/background/background.js:24-36 | performs and answers as `BackgroundModel.OnMessage` |
| Background.ServiceWorker.HandlePostBlocked | src/background/background.js:38-53 | performs `BackgroundModel.HandlePostBlocked` |
| Background.ServiceWorker.OnUpdated | src/background/background.js:56-62 | performs `BackgroundModel.OnUpdated` |

## Left out

- Asynchrony is not modelled. The `await` on storage, `setTimeout`, `MutationObserver`
  registration and the `DOMContentLoaded` start-up are replaced by events the caller
  invokes: each observer callback, timer and storage answer is a method call. A storage read
  arrives as an `Option<Settings>` parameter (`None` when it failed).
- Mutation records are flattened to the sequence of added nodes. Removed nodes and attribute
  changes do not reach the callbacks, which ignore them.
- Content.InstagramBlocker.OnFeedMutation requires the feed observer to be set, and
  Content.InstagramBlocker.OnBodyMutation requires the body observer to be connected. A
  disconnected observer is never called.
- The 30-second cleanup (`src/content/content.ts:175`) is only the event
  `StopWaitingForFeed`. When it fires is not modelled.
- Listener registration (`setupMessageListener`, the `return true` that keeps the channel
  open) is not modelled. Answers are modelled as the returned `Option<Response>`.
- `sendMessage` failures are ignored, as the code does. A message is only recorded as an
  effect, and the background worker is a separate object.
- Console logging, the placeholder's inline CSS and `content.css` are not modelled. The
  placeholder is an element with its class and its label text.
- `style.display = 'none'` is the element's `displayNone` flag. `window.getComputedStyle` is
  the element's `flexOrGrid` flag, taken as given.
- `toLowerCase` folds ASCII letters only. Unicode case mapping is not modelled.
- `trim` uses the ECMAScript white-space and line-terminator set as a fixed list.
- Counters are unbounded naturals. JavaScript numbers lose precision above 2^53, which is
  not modelled.
- Identity (`WeakSet` membership, `===`, `contains`) is by `NodeId`. The site's own changes
  to the page are the `SiteUpdatesPage` methods. The classifiers read the article value they
  are handed, which is the element as listed when the scan or delivery began. The hide
  updates the element with that identity in the current page. An article no longer in the
  page is still counted, but nothing visible changes.
- ContentModel.ArticlesToScan finds the feed container by identity in the current page. A
  container detached from the page gives an empty scan, whereas the browser would still
  search the detached subtree.
- LegacyModel.IsSponsored states each check as "some element qualifies" rather than
  "the first element in document order qualifies". For a yes/no answer the two are the same.
- Badges are read back per tab key only. The browser's rule that a tab's own badge hides the
  global one (`tabId` undefined) is not modelled.
- `src/popup/`, the two loggers and `src/background/background.ts` are not part of this
  model: they are UI wiring, console output and a single install-time write.
- CSS selectors are modelled only in the forms the code uses: a tag name,
  `[aria-label]`, `button`, `[role="button"]` and `[tabindex="0"]`.
