/**
 * The records and messages the extension's components exchange: blocked counts, settings,
 * the two block categories, the closed union of six messages discriminated by their `type`
 * tag, and the three kinds of reply.
 */
module Types {
  import opened Wrappers

  /** How many posts were hidden, per category. */
  datatype BlockedCount = BlockedCount(ads: nat, recommendations: nat) {
    function Total(): nat { ads + recommendations }
  }

  const NoneBlocked := BlockedCount(0, 0)

  /** `blockedCount.ads++` or `blockedCount.recommendations++`. */
  function Bump(count: BlockedCount, t: BlockedType): (r: BlockedCount)
    ensures r.Total() == count.Total() + 1
    ensures t == Ad ==> r.ads == count.ads + 1 && r.recommendations == count.recommendations
    ensures t == Recommendation ==> r.recommendations == count.recommendations + 1 && r.ads == count.ads
  {
    match t
    case Ad => count.(ads := count.ads + 1)
    case Recommendation => count.(recommendations := count.recommendations + 1)
  }

  datatype Settings = Settings(enabled: bool, blockAds: bool, blockRecommendations: bool)

  /** The settings used when nothing is stored: everything on. */
  const DefaultSettings := Settings(true, true, true)

  /** `'ad' | 'recommendation'`. */
  datatype BlockedType = Ad | Recommendation

  function BlockedTypeName(t: BlockedType): string {
    match t
    case Ad => "ad"
    case Recommendation => "recommendation"
  }

  function ParseBlockedType(s: string): (r: Option<BlockedType>)
    ensures r.Some? <==> s == "ad" || s == "recommendation"
  {
    if s == "ad" then Some(Ad)
    else if s == "recommendation" then Some(Recommendation)
    else None
  }

  /** The two category names are the only ones, and each names exactly one category. */
  lemma BlockedTypeNameRoundTrip(t: BlockedType, s: string)
    ensures ParseBlockedType(BlockedTypeName(t)) == Some(t)
    ensures ParseBlockedType(s) == Some(t) ==> BlockedTypeName(t) == s
  {
  }

  /** The message union; `UPDATE_SETTINGS` leaves each of its two flags optional. */
  datatype Message =
    | GetStatus
    | ToggleEnabled(enabled: bool)
    | UpdateSettings(blockAds: Option<bool>, blockRecommendations: Option<bool>)
    | GetBlockedCount
    | PostBlocked(blockedType: BlockedType, count: BlockedCount)
    | GetGlobalCount

  /** The `type` discriminants, in the order the union declares them. */
  const MessageTypes: seq<string> :=
    ["GET_STATUS", "TOGGLE_ENABLED", "UPDATE_SETTINGS", "GET_BLOCKED_COUNT", "POST_BLOCKED", "GET_GLOBAL_COUNT"]

  function MessageTypeOf(m: Message): (t: string)
    ensures t in MessageTypes
  {
    match m
    case GetStatus => "GET_STATUS"
    case ToggleEnabled(_) => "TOGGLE_ENABLED"
    case UpdateSettings(_, _) => "UPDATE_SETTINGS"
    case GetBlockedCount => "GET_BLOCKED_COUNT"
    case PostBlocked(_, _) => "POST_BLOCKED"
    case GetGlobalCount => "GET_GLOBAL_COUNT"
  }

  /** Two messages carry the same `type` exactly when they are the same variant of the union. */
  lemma MessageTypeDiscriminates(m1: Message, m2: Message)
    ensures MessageTypeOf(m1) == MessageTypeOf(m2) <==>
      && (m1.GetStatus? <==> m2.GetStatus?)
      && (m1.ToggleEnabled? <==> m2.ToggleEnabled?)
      && (m1.UpdateSettings? <==> m2.UpdateSettings?)
      && (m1.GetBlockedCount? <==> m2.GetBlockedCount?)
      && (m1.PostBlocked? <==> m2.PostBlocked?)
      && (m1.GetGlobalCount? <==> m2.GetGlobalCount?)
  {
  }

  /** The union is closed over exactly six distinct tags, and every tag is carried by some message. */
  lemma MessageTypesExactlySix()
    ensures |MessageTypes| == 6
    ensures forall i, j :: 0 <= i < j < |MessageTypes| ==> MessageTypes[i] != MessageTypes[j]
    ensures forall t :: t in MessageTypes ==> exists m :: MessageTypeOf(m) == t
  {
    assert MessageTypeOf(GetStatus) == MessageTypes[0];
    assert MessageTypeOf(ToggleEnabled(true)) == MessageTypes[1];
    assert MessageTypeOf(UpdateSettings(None, None)) == MessageTypes[2];
    assert MessageTypeOf(GetBlockedCount) == MessageTypes[3];
    assert MessageTypeOf(PostBlocked(Ad, NoneBlocked)) == MessageTypes[4];
    assert MessageTypeOf(GetGlobalCount) == MessageTypes[5];
  }

  datatype StatusResponse = StatusResponse(enabled: bool, blockedCount: BlockedCount)

  datatype SuccessResponse = SuccessResponse(success: bool)

  /** What a content script may answer: `StatusResponse | SuccessResponse | BlockedCount`. */
  datatype Response =
    | StatusReply(status: StatusResponse)
    | SuccessReply(result: SuccessResponse)
    | CountReply(count: BlockedCount)
}
