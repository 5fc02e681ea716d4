/**
 * The background service worker: the module-level `globalBlockedCount` and the browser calls
 * its three listeners make, as fields of one object whose listener methods update them in
 * place. Each listener is proved to perform the transition of the same name in
 * `BackgroundModel`.
 */
module Background {
  import opened Wrappers
  import opened Strings
  import opened Types
  import Model = BackgroundModel

  class ServiceWorker {
    var globalBlockedCount: BlockedCount
    /** The storage and badge calls made so far, oldest first. */
    var calls: seq<Model.Call>

    function Snapshot(): Model.State
      reads this
    {
      Model.State(globalBlockedCount, calls)
    }

    /** Loading the worker: the count starts at zero and no call has been made. */
    constructor()
      ensures Snapshot() == Model.InitialState
    {
      globalBlockedCount := NoneBlocked;
      calls := [];
    }

    /** The `onInstalled` listener; `reason` is `details.reason`. */
    method OnInstalled(reason: string)
      modifies this
      ensures Snapshot() == Model.OnInstalled(old(Snapshot()), reason)
    {
      if reason == "install" {
        calls := calls + [Model.StorageWrite(Settings(true, true, true))];
      }
    }

    /** The `onMessage` listener; `senderTab` is `sender.tab?.id`, the reply what `sendResponse` receives. */
    method OnMessage(m: Message, senderTab: Option<nat>) returns (reply: Option<BlockedCount>)
      modifies this
      ensures (Snapshot(), reply) == Model.OnMessage(old(Snapshot()), m, senderTab)
    {
      reply := None;
      match m
      case PostBlocked(_, count) =>
        HandlePostBlocked(count, senderTab);
      case GetGlobalCount =>
        reply := Some(globalBlockedCount);
      case _ =>
    }

    /** `handlePostBlocked(message, sender)`. */
    method HandlePostBlocked(count: BlockedCount, tabId: Option<nat>)
      modifies this
      ensures Snapshot() == Model.HandlePostBlocked(old(Snapshot()), count, tabId)
    {
      globalBlockedCount := count;
      var total := globalBlockedCount.ads + globalBlockedCount.recommendations;
      if total > 0 {
        calls := calls + [Model.SetBadgeText(Model.NatToString(total), tabId)];
        calls := calls + [Model.SetBadgeBackgroundColor(Model.BadgeColor, tabId)];
      }
    }

    /** The `tabs.onUpdated` listener; `status` is `changeInfo.status` and `url` is `tab.url`, `None` when undefined. */
    method OnUpdated(tabId: nat, status: Option<string>, url: Option<string>)
      modifies this
      ensures Snapshot() == Model.OnUpdated(old(Snapshot()), tabId, status, url)
    {
      if status == Some("complete") && url.Some? && url.value != "" {
        if !Includes(url.value, Model.InstagramHost) {
          calls := calls + [Model.SetBadgeText("", Some(tabId))];
        }
      }
    }
  }
}
