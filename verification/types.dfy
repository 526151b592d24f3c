/** The SDK's shared data types: play outcomes, show results, ad kinds, ad-source
    descriptors, the remote policy document, session counters and cache entries. */
module Types {
  import opened JsValue

  /** What one adapter `play()` (and the waterfall) resolves with. */
  datatype Outcome = Ok | Skipped | NoFill | Error | Timeout

  /** `GBEvent`: the names listeners can subscribe to. */
  datatype GBEvent =
    | Loaded | Started | FirstQuartile | Midpoint | ThirdQuartile | Complete
    | SkippedEvent | AllCompleted | ErrorEvent | TimeoutEvent | NoFillEvent
    | GameStarted | GameEnded

  datatype AdKind = Interstitial | Rewarded {
    function Other(): (k: AdKind)
      ensures k != this
    {
      if Interstitial? then Rewarded else Interstitial
    }
  }

  /** Why a show call failed: 'cooldown', 'capped', 'no_fill' (`Unfilled`),
      'error' (`Failed`), 'timeout' (`TimedOut`) or 'blocked'. */
  datatype Reason = Cooldown | Capped | Unfilled | Failed | TimedOut | Blocked

  /** `ShowOk | ShowNo` */
  datatype ShowResult = ShowOk(kind: AdKind) | ShowNo(reason: Reason)

  /** The `type` tag of a source entry; `OtherType` is any value that is not one
      of the three strings the manager dispatches on. */
  datatype SourceType = Prebid | Gam | Vast | OtherType

  datatype PrebidBidder = PrebidBidder(name: string, params: map<string, Json>)

  datatype PrebidConfig = PrebidConfig(enabled: Option<bool>, bidders: seq<PrebidBidder>, timeout: Option<int>)

  datatype GAMConfig = GAMConfig(enabled: Option<bool>, networkCode: string, adUnitPath: string, timeout: Option<int>)

  /** One waterfall entry. `Missing` is a null entry of the list: reading its
      `type` throws. */
  datatype AdSourceConfig =
    | Source(sourceType: SourceType, prebid: Option<PrebidConfig>, gam: Option<GAMConfig>, vastTags: Option<seq<string>>)
    | Missing

  /** The per-kind section of the remote document. */
  datatype KindSection = KindSection(tags: Option<seq<string>>, sources: Option<seq<AdSourceConfig>>, blockedCountries: Option<seq<string>>)

  datatype FeatureFlags = FeatureFlags(killInterstitial: bool, killRewarded: bool)

  /** The remote policy document; every field optional, so the same type serves
      as `Partial<GBRemoteConfig>` for A/B group overrides. A document that passed
      validation always has a `version`. */
  datatype RemoteDoc = RemoteDoc(
    version: Option<string>,
    cooldownSec: Option<int>,
    sessionCap: Option<int>,
    interstitial: Option<KindSection>,
    rewarded: Option<KindSection>,
    featureFlags: Option<FeatureFlags>,
    ab: Option<AbConfig>)
  {
    function Section(kind: AdKind): Option<KindSection> {
      if kind.Interstitial? then interstitial else rewarded
    }
  }

  datatype AbConfig = AbConfig(bucketing: Option<string>, groups: Option<map<string, RemoteDoc>>)

  const EmptyDoc := RemoteDoc(None, None, None, None, None, None, None)

  datatype SessionData = SessionData(lastShown: int, count: int)

  const FreshSession := SessionData(0, 0)

  /** `Record<AdKind, SessionData>`: exactly one entry per kind. */
  datatype Sessions = Sessions(interstitial: SessionData, rewarded: SessionData) {
    function Get(kind: AdKind): SessionData {
      if kind.Interstitial? then interstitial else rewarded
    }

    /** `sessionData[kind] = v`: the entry of `kind` becomes `v`, the other kind keeps its entry. */
    function With(kind: AdKind, v: SessionData): (s: Sessions)
      ensures s.Get(kind) == v
      ensures s.Get(kind.Other()) == Get(kind.Other())
    {
      if kind.Interstitial? then this.(interstitial := v) else this.(rewarded := v)
    }
  }

  const FreshSessions := Sessions(FreshSession, FreshSession)

  /** A cached remote document: the raw parsed value, its ETag and the time it
      was last confirmed valid. */
  datatype CacheEntry = CacheEntry(data: Json, etag: string, timestamp: int)
}
