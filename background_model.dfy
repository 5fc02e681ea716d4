/**
 * The background service worker as a state and pure transitions: the count last reported by
 * a content script, and the calls made to the browser (storage writes and badge updates).
 * The badge a tab shows is read back from those calls.
 */
module BackgroundModel {
  import opened Wrappers
  import opened Strings
  import opened Types

  /** `chrome.storage.sync.set(...)`, `chrome.action.setBadgeText(...)`, `chrome.action.setBadgeBackgroundColor(...)`; `tabId` is `None` when undefined. */
  datatype Call =
    | StorageWrite(settings: Settings)
    | SetBadgeText(text: string, tabId: Option<nat>)
    | SetBadgeBackgroundColor(color: string, tabId: Option<nat>)

  datatype State = State(globalBlockedCount: BlockedCount, calls: seq<Call>)

  const InitialState := State(NoneBlocked, [])

  const BadgeColor := "#e74c3c"

  const InstagramHost := "instagram.com"

  // ---------------------------------------------------------------- decimal text

  predicate IsDigit(c: char) {
    '0' <= c <= '9'
  }

  function DigitChar(d: nat): (c: char)
    requires d < 10
    ensures IsDigit(c) && c as int - '0' as int == d
  {
    ('0' as int + d) as char
  }

  /** `n.toString()` for a non-negative integer: decimal digits, no leading zero. */
  function NatToString(n: nat): (r: string)
    ensures r != [] && forall i :: 0 <= i < |r| ==> IsDigit(r[i])
    ensures |r| > 1 ==> r[0] != '0'
    decreases n
  {
    if n < 10 then [DigitChar(n)] else NatToString(n / 10) + [DigitChar(n % 10)]
  }

  function DigitValue(c: char): (d: nat)
    requires IsDigit(c)
    ensures d < 10
  {
    c as int - '0' as int
  }

  /** The value of a string of decimal digits. */
  function ParseDecimal(s: string): nat
    requires forall i :: 0 <= i < |s| ==> IsDigit(s[i])
    decreases |s|
  {
    if s == [] then 0 else ParseDecimal(s[..|s| - 1]) * 10 + DigitValue(s[|s| - 1])
  }

  /** The badge text reads back as the number it was made from. */
  lemma {:induction false} DecimalRoundTrip(n: nat)
    ensures ParseDecimal(NatToString(n)) == n
    decreases n
  {
    var r := NatToString(n);
    if n >= 10 {
      DecimalRoundTrip(n / 10);
      assert r[..|r| - 1] == NatToString(n / 10);
    }
  }

  /** Different totals show different badge texts. */
  lemma DecimalInjective(m: nat, n: nat)
    ensures NatToString(m) == NatToString(n) ==> m == n
  {
    DecimalRoundTrip(m);
    DecimalRoundTrip(n);
  }

  // ---------------------------------------------------------------- badge read-back

  /** The text last set on the badge of `tabId` by the calls, `None` if none was. */
  function BadgeText(calls: seq<Call>, tabId: Option<nat>): Option<string>
    decreases |calls|
  {
    if calls == [] then None
    else match calls[|calls| - 1]
      case SetBadgeText(text, t) => if t == tabId then Some(text) else BadgeText(calls[..|calls| - 1], tabId)
      case _ => BadgeText(calls[..|calls| - 1], tabId)
  }

  /** The colour last set on the badge of `tabId` by the calls, `None` if none was. */
  function BadgeColorOf(calls: seq<Call>, tabId: Option<nat>): Option<string>
    decreases |calls|
  {
    if calls == [] then None
    else match calls[|calls| - 1]
      case SetBadgeBackgroundColor(color, t) => if t == tabId then Some(color) else BadgeColorOf(calls[..|calls| - 1], tabId)
      case _ => BadgeColorOf(calls[..|calls| - 1], tabId)
  }

  // ---------------------------------------------------------------- listeners

  /** `chrome.runtime.onInstalled`: only a fresh install writes the default settings. */
  function OnInstalled(s: State, reason: string): (r: State)
    ensures reason == "install" ==> r.calls == s.calls + [StorageWrite(Settings(true, true, true))]
    ensures reason != "install" ==> r == s
    ensures r.globalBlockedCount == s.globalBlockedCount
  {
    if reason == "install" then s.(calls := s.calls + [StorageWrite(DefaultSettings)]) else s
  }

  /** `handlePostBlocked(message, sender)`: take the reported count; show the total on the sender's tab when it is positive. */
  function HandlePostBlocked(s: State, count: BlockedCount, tabId: Option<nat>): State {
    var total := count.Total();
    var calls := if total > 0
                 then s.calls + [SetBadgeText(NatToString(total), tabId), SetBadgeBackgroundColor(BadgeColor, tabId)]
                 else s.calls;
    State(count, calls)
  }

  /** `chrome.runtime.onMessage`; the reply is what `sendResponse` is given, `None` when it is not called. */
  function OnMessage(s: State, m: Message, senderTab: Option<nat>): (State, Option<BlockedCount>) {
    match m
    case PostBlocked(_, count) => (HandlePostBlocked(s, count, senderTab), None)
    case GetGlobalCount => (s, Some(s.globalBlockedCount))
    case _ => (s, None)
  }

  /** `chrome.tabs.onUpdated`: a finished load of a page that is not Instagram clears that tab's badge. */
  function OnUpdated(s: State, tabId: nat, status: Option<string>, url: Option<string>): State {
    if status == Some("complete") && url.Some? && url.value != [] && !Includes(url.value, InstagramHost)
    then s.(calls := s.calls + [SetBadgeText("", Some(tabId))])
    else s
  }

  // ---------------------------------------------------------------- properties

  /**
   * A report replaces the global count (it does not add to it). A positive total is shown,
   * in decimal and in red, on the sender's tab; a zero total leaves the badges alone.
   */
  lemma PostBlockedShowsTotal(s: State, count: BlockedCount, tabId: Option<nat>)
    ensures var r := HandlePostBlocked(s, count, tabId);
      && r.globalBlockedCount == count
      && (count.Total() > 0 ==>
            && BadgeText(r.calls, tabId).Some?
            && BadgeText(r.calls, tabId).value == NatToString(count.Total())
            && BadgeColorOf(r.calls, tabId) == Some(BadgeColor))
      && (count.Total() == 0 ==> r.calls == s.calls)
  {
    var r := HandlePostBlocked(s, count, tabId);
    if count.Total() > 0 {
      var mid := s.calls + [SetBadgeText(NatToString(count.Total()), tabId)];
      assert r.calls[..|r.calls| - 1] == mid;
      assert mid[..|mid| - 1] == s.calls;
    }
  }

  /** The badge of a reporting tab reads back as the number of posts hidden there. */
  lemma BadgeReadsBackTotal(s: State, count: BlockedCount, tabId: Option<nat>)
    requires count.Total() > 0
    ensures var text := BadgeText(HandlePostBlocked(s, count, tabId).calls, tabId);
      text.Some? && (forall i :: 0 <= i < |text.value| ==> IsDigit(text.value[i]))
      && ParseDecimal(text.value) == count.ads + count.recommendations
  {
    PostBlockedShowsTotal(s, count, tabId);
    DecimalRoundTrip(count.Total());
  }

  /** Two reports in a row: the global count is the second one, not their sum. */
  lemma LastReportWins(s: State, c1: BlockedCount, c2: BlockedCount, t1: Option<nat>, t2: Option<nat>)
    ensures OnMessage(OnMessage(s, PostBlocked(Ad, c1), t1).0, PostBlocked(Ad, c2), t2).0.globalBlockedCount == c2
    ensures OnMessage(OnMessage(s, PostBlocked(Ad, c1), t1).0, GetGlobalCount, t2).1 == Some(c1)
  {
  }

  /** `GET_GLOBAL_COUNT` answers with the count and changes nothing; the other content-script messages are ignored. */
  lemma OnMessageQueries(s: State, m: Message, senderTab: Option<nat>)
    ensures m.GetGlobalCount? ==> OnMessage(s, m, senderTab) == (s, Some(s.globalBlockedCount))
    ensures !m.PostBlocked? && !m.GetGlobalCount? ==> OnMessage(s, m, senderTab) == (s, None)
    ensures m.PostBlocked? ==> OnMessage(s, m, senderTab).1.None?
  {
  }

  /**
   * A finished load of a page that is not Instagram blanks that tab's badge and nothing
   * else: the global count stays, and other tabs' badges are as they were. Loads that are
   * unfinished, have no URL or are on Instagram change nothing.
   */
  lemma NavigationAwayClearsBadge(s: State, tabId: nat, status: Option<string>, url: Option<string>, other: Option<nat>)
    ensures var r := OnUpdated(s, tabId, status, url);
      && r.globalBlockedCount == s.globalBlockedCount
      && (other != Some(tabId) ==> BadgeText(r.calls, other) == BadgeText(s.calls, other))
      && BadgeColorOf(r.calls, other) == BadgeColorOf(s.calls, other)
    ensures status == Some("complete") && url.Some? && url.value != [] && !Includes(url.value, InstagramHost)
            ==> BadgeText(OnUpdated(s, tabId, status, url).calls, Some(tabId)) == Some("")
    ensures status != Some("complete") || url.None? || url == Some([]) || (url.Some? && Includes(url.value, InstagramHost))
            ==> OnUpdated(s, tabId, status, url) == s
  {
    var r := OnUpdated(s, tabId, status, url);
    if r != s {
      assert r.calls[..|r.calls| - 1] == s.calls;
    }
  }

  /** Instagram pages keep their badge: any URL containing the host is left alone. */
  lemma InstagramPagesKeepBadge(s: State, tabId: nat, prefix: string, suffix: string)
    ensures OnUpdated(s, tabId, Some("complete"), Some(prefix + InstagramHost + suffix)) == s
  {
    IncludesPiece(prefix, InstagramHost, suffix);
  }
}
