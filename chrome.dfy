/**
 * The browser services the extension calls, as values the model records instead of
 * performing: writes to `chrome.storage.sync` and messages sent with
 * `chrome.runtime.sendMessage` (whose failures the source ignores).
 */
module Chrome {
  import opened Wrappers
  import opened Types

  /** The object passed to `chrome.storage.sync.set`: the keys it names are written, the others kept. */
  datatype SettingsPatch = SettingsPatch(enabled: Option<bool>, blockAds: Option<bool>, blockRecommendations: Option<bool>)

  /** The stored settings after a `set` of `p`. */
  function ApplyPatch(stored: Settings, p: SettingsPatch): (r: Settings)
    ensures p.enabled.None? ==> r.enabled == stored.enabled
    ensures p.blockAds.None? ==> r.blockAds == stored.blockAds
    ensures p.blockRecommendations.None? ==> r.blockRecommendations == stored.blockRecommendations
    ensures p.enabled.Some? ==> r.enabled == p.enabled.value
    ensures p.blockAds.Some? ==> r.blockAds == p.blockAds.value
    ensures p.blockRecommendations.Some? ==> r.blockRecommendations == p.blockRecommendations.value
  {
    Settings(p.enabled.GetOr(stored.enabled), p.blockAds.GetOr(stored.blockAds),
             p.blockRecommendations.GetOr(stored.blockRecommendations))
  }

  /** An outgoing call, in the order the script makes it. */
  datatype Effect =
    | StorageSet(patch: SettingsPatch)
    | SendMessage(message: Message)
}
