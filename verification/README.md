# gbsdk core, modelled in Dafny

GBSDK is a browser SDK for HTML5 games. It shows interstitial and rewarded
video ads. A game calls `init`, then `showInterstitial()` / `showRewarded()`.
The SDK answers `{success: true, type}` or `{success: false, reason}`, where the
reason is `cooldown`, `capped`, `blocked`, `no_fill`, `error` or `timeout`.

This project models the parts of the SDK that decide what happens:

- **The controller `GBSDK`** (`sdk.dfy`, with its pure policy in `policy.dfy`):
  - the `initialized` lifecycle;
  - `init`: the re-entry guard, the defaults, the generated config URL, the remote document;
  - pacing in `canShow`: the cooldown, the per-session cap and the kill switches;
  - the effective configuration: defaults < local settings < remote document < the drawn A/B group;
  - `showAd`: the deny reason, then the waterfall when the effective sources are non-empty, else the legacy VAST tag loop;
  - the outcome policy: an interstitial's `skipped` counts as shown, a rewarded `skipped` does not;
  - the session counters in session storage;
  - `destroy`, `gameStarted` and `gameEnded`.
- **The waterfall manager** (`waterfall.dfy`): ad sources tried in order until one
  returns `ok`. Each of the three networks (Prebid, Google Ad Manager, IMA/VAST) has
  at most one live adapter. That adapter is built and loaded on first use and reused
  until `destroy`.
- **The remote policy client `RemoteConfig`** (`remote_config.dfy`, with the
  document schema in `schema.dfy`): a stale-while-revalidate cache in local storage
  under three keys. It refreshes with a conditional GET using entity tags
  (`If-None-Match`, `304 Not Modified`, sections 8.8.3, 13.1.2 and 15.4.5 of RFC 9110).
  It guards the URL (HTTPS only, plus an optional allow-list of domains, `net.dfy`)
  and validates documents against a schema.
- **The event emitter** (`events.dfy`): per-event listener sets kept in insertion order.
  Listeners may add or remove listeners, or throw, while an event is being emitted.
- **Consent and tracking helpers**:
  - reading IAB TCF v2 consent into `gdpr`/`tcString`/`npa` (`tcf.dfy`);
  - naming the ad network of a tag URL (`tracking.dfy`).
- **Shared types and JavaScript semantics** (`types.dfy`, `jsvalue.dfy`, `text.dfy`):
  - the shared types;
  - JSON values and JavaScript truthiness;
  - `includes`, `endsWith`, `parseInt` and number-to-string.

The parts are modelled in the form the source takes:
- `WaterfallManager`, `RemoteConfig`, `EventEmitter` and `GBSDK` are classes.
  Their methods update fields. Each method is proved against a specification
  function over a value snapshot of the state, e.g.
  `(r, State()) == Run(old(State()), sources, kind, env)`.
- The pure helpers are functions.
- The legacy tag loop is a `while` loop with invariants.

The outside world becomes inputs:
- The clock is a set of times: the check time, the time a denial is explained,
  and the time an ad finishes.
- The network's answer is a `NetResult`.
- Each `Math.random()` A/B draw is a group name.
- `JSON.parse`/`JSON.stringify` are a `Codec`. `Faithful(codec)` states that a
  stringified value parses back.
- Each ad adapter is an oracle `Env`. It says whether a fresh adapter's `load()`
  resolves, and how the n-th `play()` call settles: a resolved outcome or a rejection.

## Model

| member | source | states |
|---|---|---|
| Waterfall.Acquire | src/adapters/waterfallManager.ts:128-131 | a live adapter of the network is reused untouched (may go on to play); otherwise a new one numbered by its network's build count is put in the slot, loaded once, and the call may play only when `load()` resolved; other networks' slots and counts are unchanged |
| Waterfall.VastTagsSpec | src/adapters/waterfallManager.ts:205-222 | the per-tag loop ends in `ok`, `no_fill` or `error` only; when it gives `no_fill` is stated by `AllTagsFailNoFill` |
| Waterfall.AllTagsFailNoFill | src/adapters/waterfallManager.ts:205-224 | the tag loop gives `no_fill` exactly when every tag, played in order, settled without `ok` and without throwing |
| Waterfall.TryVastSpec | src/adapters/waterfallManager.ts:186-229 | `tryVAST` resolves with `ok`, `no_fill` or `error` only; its `no_fill` case is stated by `VastNoFillIffAllMiss` |
| Waterfall.FailedLoadIsError | src/adapters/waterfallManager.ts:108-229 | a fresh Prebid, GAM or VAST adapter whose `load()` rejects ends the attempt in the `catch` with `error`, and nothing is played |
| Waterfall.VastNoFillIffAllMiss | src/adapters/waterfallManager.ts:190-224 | missing or empty tags give `error` and change nothing; `no_fill` exactly when there are tags, the adapter loads and every tag misses |
| Waterfall.TryPrebidSpec | src/adapters/waterfallManager.ts:108-142 | defines `tryPrebid` on the pool; its properties are stated by `EntryShortCircuits`, `TryPrebidKeepsValid` and `TrySourceFrame` |
| Waterfall.TryGamSpec | src/adapters/waterfallManager.ts:147-181 | defines `tryGAM` on the pool; its properties are stated by `EntryShortCircuits`, `TryGamKeepsValid` and `TrySourceFrame` |
| Waterfall.TrySourceSpec | src/adapters/waterfallManager.ts:83-103 | defines `trySource` on the pool; its properties are stated by `EntryShortCircuits`, `TrySourceKeepsValid`, `TrySourceFrame` and `TrySourcePlaysGrow` |
| Waterfall.Run | src/adapters/waterfallManager.ts:19-78 | the waterfall resolves with `ok` or `no_fill` only; an empty list is `no_fill` with no adapter touched |
| Waterfall.DestroySpec | src/adapters/waterfallManager.ts:234-249 | after `destroy` all three slots are empty |
| Waterfall.Retire | src/adapters/waterfallManager.ts:234-249 | retiring one network empties its slot and leaves the others' slots alone |
| Waterfall.EmptyPoolValid | src/adapters/waterfallManager.ts:11-14 | a new manager, with no adapters, satisfies the pool invariant |
| Waterfall.WaterfallManager.constructor | src/adapters/waterfallManager.ts:11-14 | a new manager has three empty slots, no adapter built, and satisfies the invariant |
| Waterfall.WaterfallManager.AcquireAdapter | src/adapters/waterfallManager.ts:128-131 | the new state, the adapter and the may-play flag are those of `Acquire` |
| Waterfall.WaterfallManager.Play | src/adapters/waterfallManager.ts:134 | one `play()` is logged and settles as the oracle says |
| Waterfall.WaterfallManager.TryPrebid | src/adapters/waterfallManager.ts:108-142 | result and new state are those of `TryPrebidSpec`: `error` without a payload, `no_fill` when `enabled` is false, otherwise acquire and play (`error` when loading or playing throws) |
| Waterfall.WaterfallManager.TryGAM | src/adapters/waterfallManager.ts:147-181 | result and new state are those of `TryGamSpec` (same shape as Prebid) |
| Waterfall.WaterfallManager.TryVAST | src/adapters/waterfallManager.ts:186-229 | result and new state are those of `TryVastSpec`: `error` for missing or empty tags, then the tags in order with one shared adapter |
| Waterfall.WaterfallManager.TrySource | src/adapters/waterfallManager.ts:83-103 | result and new state are those of `TrySourceSpec`: dispatch on `type`, an unknown type is `error`, a null entry rejects |
| Waterfall.WaterfallManager.ExecuteWaterfall | src/adapters/waterfallManager.ts:19-78 | keeps the pool invariant; result and new state are those of `Run` (a rejected source is skipped like a failed one) |
| Waterfall.WaterfallManager.Destroy | src/adapters/waterfallManager.ts:234-249 | keeps the invariant; the new state is `DestroySpec`: each live adapter destroyed once, slots emptied |
| Waterfall.CountOfAppend | src/adapters/waterfallManager.ts:128-131 | counting adapters of a network in a log grows by one exactly when the appended adapter is of that network |
| Waterfall.AcquireKeepsValid | src/adapters/waterfallManager.ts:128-131 | acquiring keeps the invariant: every built adapter loaded once, either live in its slot or destroyed |
| Waterfall.TrySourceKeepsValid | src/adapters/waterfallManager.ts:83-103 | trying one source keeps the pool invariant |
| Waterfall.TryPrebidKeepsValid | src/adapters/waterfallManager.ts:108-142 | `tryPrebid` keeps the pool invariant |
| Waterfall.TryGamKeepsValid | src/adapters/waterfallManager.ts:147-181 | `tryGAM` keeps the pool invariant |
| Waterfall.TryVastKeepsValid | src/adapters/waterfallManager.ts:186-229 | `tryVAST` keeps the pool invariant |
| Waterfall.PlaysDoNotMatter | src/adapters/waterfallManager.ts:134 | logging more plays never breaks the pool invariant |
| Waterfall.VastTagsOnlyPlay | src/adapters/waterfallManager.ts:205-219 | the VAST tag loop only plays: it builds, loads and destroys nothing |
| Waterfall.RunKeepsValid | src/adapters/waterfallManager.ts:19-78 | a whole waterfall keeps the pool invariant |
| Waterfall.DestroyKeepsValid | src/adapters/waterfallManager.ts:234-249 | `destroy` keeps the pool invariant |
| Waterfall.RetireKeepsValid | src/adapters/waterfallManager.ts:234-249 | retiring one network keeps the pool invariant |
| Waterfall.AtMostOneAdapterPerNetwork | src/adapters/waterfallManager.ts:11-14 | before any `destroy`, at most one adapter per network was ever built and loaded |
| Waterfall.LiveAdapterReused | src/adapters/waterfallManager.ts:128-131 | a live adapter survives any waterfall: same slot, no new build |
| Waterfall.AcquireKeepsLive | src/adapters/waterfallManager.ts:128-131 | acquiring (plus any plays) keeps every live adapter and its build count, and destroys nothing |
| Waterfall.TrySourceFrame | src/adapters/waterfallManager.ts:83-103 | trying a source keeps live adapters and their build counts, loads nothing when all three are live, and destroys nothing |
| Waterfall.OkStopsTheWaterfall | src/adapters/waterfallManager.ts:47-56 | once a prefix of the list ends in `ok`, later sources are never tried |
| Waterfall.FailureMovesOn | src/adapters/waterfallManager.ts:37-72 | a failed prefix hands its state on: running `s + t` is running `t` after `s` |
| Waterfall.FailedSourceContinues | src/adapters/waterfallManager.ts:47-70 | a source that does not resolve `ok` (including one that rejects) is followed by the rest of the list |
| Waterfall.EntryShortCircuits | src/adapters/waterfallManager.ts:83-163 | a null entry rejects; an unknown type or a missing payload is `error`; a Prebid or GAM entry with `enabled` false is `no_fill`; none of these touches an adapter |
| Waterfall.NullEntrySkipped | src/adapters/waterfallManager.ts:47-70 | a null entry in the list is skipped as if absent |
| Waterfall.VastOkStopsTags | src/adapters/waterfallManager.ts:205-213 | a VAST tag that plays `ok` ends the tag loop |
| Waterfall.VastErrorStopsTags | src/adapters/waterfallManager.ts:205-219 | a rejected VAST play ends the tag loop with `error` |
| Waterfall.PlaysOnlyGrow | src/adapters/waterfallManager.ts:19-78 | the play log of a waterfall only grows: earlier plays are kept as a prefix |
| Waterfall.TrySourcePlaysGrow | src/adapters/waterfallManager.ts:83-103 | trying a source only appends to the play log |
| Waterfall.VastTagsPlaysGrow | src/adapters/waterfallManager.ts:205-219 | the tag loop only appends to the play log |
| Waterfall.DestroyIdempotent | src/adapters/waterfallManager.ts:234-249 | destroying twice is destroying once; destroying an empty manager changes nothing |
| Waterfall.RebuildAfterDestroy | src/adapters/waterfallManager.ts:128-131 | after `destroy`, the next use of a network builds a new adapter, numbered after all earlier ones |
| Waterfall.DebugLoggingChangesOutcome | src/adapters/waterfallManager.ts:30-45 | the code as written: with debug logging on, `[null, vast]` rejects, although it resolves `ok` with logging off |
| Events.Without | src/events.ts:23-31 | removal from a listener list keeps exactly the other members and never lengthens the list; absent element leaves it unchanged |
| Events.WithoutKeepsNoDups | src/events.ts:23-31 | removing from a duplicate-free list keeps it duplicate-free |
| Events.EmptyRegistry | src/events.ts:8 | the empty map satisfies the registry invariant |
| Events.EventEmitter.constructor | src/events.ts:8 | a new emitter has no events and no listeners |
| Events.Registry.On | src/events.ts:13-18 | defines `on` on the registry value; stated by `EventEmitter.On` and the `Events` lemmas |
| Events.Registry.Off | src/events.ts:23-31 | defines `off` on the registry value; stated by `EventEmitter.Off` and the `Events` lemmas |
| Events.Registry.RemoveAll | src/events.ts:36-42 | defines `removeAllListeners` on the registry value; stated by `EventEmitter.RemoveAllListeners` |
| Events.EventEmitter.On | src/events.ts:13-18 | keeps the invariant; new registry is `Registry.On`: a set per event, first registration order, no duplicates |
| Events.EventEmitter.Off | src/events.ts:23-31 | keeps the invariant; new registry is `Registry.Off`: the listener leaves, an emptied event disappears |
| Events.EventEmitter.RemoveAllListeners | src/events.ts:36-42 | keeps the invariant; one event's listeners, or all, are dropped |
| Events.EventEmitter.ApplyReaction | src/events.ts:47-60 | a listener's calls back into the emitter are applied in order |
| Events.EventEmitter.Emit | src/events.ts:47-60 | exactly the listeners registered at the start are called, in order, each with the data, even if listeners throw or change the registry; the registry then reflects their edits |
| Events.EventEmitter.ListenerCount | src/events.ts:65-68 | the count is the number of listeners, 0 exactly for an event not in the map |
| Events.EventEmitter.HasListeners | src/events.ts:73-75 | true exactly when the count is positive |
| Events.EventEmitter.EventNames | src/events.ts:80-82 | lists exactly the events with a listener, once each |
| Events.OnKeepsValid | src/events.ts:13-18 | `on` keeps the registry invariant |
| Events.OffKeepsValid | src/events.ts:23-31 | `off` keeps the registry invariant |
| Events.RemoveAllKeepsValid | src/events.ts:36-42 | `removeAllListeners` keeps the registry invariant |
| Events.OnIsIdempotent | src/events.ts:13-18 | adding twice is adding once; count grows by one only for a new listener; other events untouched |
| Events.OffRemovesOnlyThatListener | src/events.ts:23-31 | `off` removes that listener of that event and nothing else; an unregistered listener changes nothing |
| Events.WithoutOneLess | src/events.ts:23-31 | removing a present listener from a duplicate-free list shortens it by one |
| Events.OffUndoesOn | src/events.ts:13-31 | `off` after `on` of a new listener restores the registry |
| Events.WithoutAppended | src/events.ts:13-31 | removing an element just appended to a list without it gives the list back |
| Events.RemoveAllScope | src/events.ts:36-42 | removing one event's listeners empties that event only; removing all empties every event |
| Events.NamesAreNonEmptyEvents | src/events.ts:80-82 | the event order lists exactly the events that have listeners |
| Events.PassiveListenersChangeNothing | src/events.ts:47-60 | listeners that do not call back into the emitter leave it unchanged |
| Net.ValidateHttpsUrl | src/utils/net.ts:99-104 | returns normally exactly for a parseable `https:` URL |
| Net.SomeDomainMatches | src/utils/net.ts:115-118 | true exactly when some entry equals the host or is a dot-separated parent of it |
| Net.ValidateAllowedDomain | src/utils/net.ts:109-123 | an empty list accepts everything; otherwise accepts exactly a parseable URL whose host matches some entry |
| Net.CheckConfigUrl | src/remote/RemoteConfig.ts:39-42 | the URL passes exactly when it is HTTPS and, for a non-empty allow-list, its host is allowed; an HTTPS failure is reported first |
| Net.SuffixNeedsDot | src/utils/net.ts:115-118 | `badexample.com` and `evil.com` are refused for `example.com`; `cdn.example.com` and `example.com` are accepted |
| Net.SubdomainAccepted | src/utils/net.ts:99-123 | any HTTPS subdomain of the allowed domain passes both checks |
| Net.PlainHttpRejected | src/utils/net.ts:99-104 | an `http:` URL is refused whatever the allow-list |
| Tcf.MapTcData | src/utils/tcf.ts:47-61 | `gdpr` is 1 or 0 by `gdprApplies`, `tcString` is passed on, `npa` is 1 exactly when GDPR applies and the consents record lacks purpose 1 |
| Tcf.GetTcf | src/utils/tcf.ts:22-71 | without an API, on a throw, a silent or failed callback or a falsy `tcData`, the default `{npa: 0}`; otherwise the mapped data |
| Tcf.HasPersonalizedAdsConsent | src/utils/tcf.ts:76-84 | consent is refused exactly when `gdpr` is not 0 and `npa` is 1 |
| Tcf.ConsentEndToEnd | src/utils/tcf.ts:22-84 | personalised ads are refused exactly when a successful callback reports GDPR applies and purpose 1 not granted |
| Tcf.NoGdprNoNpa | src/utils/tcf.ts:47-61 | without `gdprApplies`, `gdpr` is 0 and `npa` is 0 |
| Tcf.MissingPurposeKeepsPersonalised | src/utils/tcf.ts:50-61 | with GDPR applying but no `purpose` record, `npa` stays 0 |
| Tcf.Purpose1Withheld | src/utils/tcf.ts:54-61 | with GDPR applying and any consents object, `npa` is 0 exactly when its `'1'` is `true`; a missing `'1'`, `false` or a non-boolean gives 1 |
| Tracking.GetAdNetworkFromTag | src/utils/tracking.ts:57-64 | the name is one of five; each name is returned exactly when its substring occurs and no earlier substring does |
| Tracking.FirstMatchWins | src/utils/tracking.ts:57-64 | a URL containing `filthyselection` is FilthySelection whatever else it contains |
| Tracking.CaseSensitive | src/utils/tracking.ts:57-64 | matching is case-sensitive: `ADBUTLER` is Unknown |
| Text.Contains | src/utils/tracking.ts:58-62 | `includes`: true exactly when the substring occurs at some position |
| Text.ParseInt | src/remote/RemoteConfig.ts:160 | defines `parseInt(text, 10)` on the stored timestamp; stated by `ParseIntOfIntToString` |
| Text.ParseIntOfIntToString | src/remote/RemoteConfig.ts:160-180 | the stored timestamp text parses back to the same integer |
| Types.Sessions.With | src/types.ts:175 | setting one kind's counters leaves the other kind's alone |
| Schema.ValidateConfig | src/remote/RemoteConfig.ts:194-226 | passes exactly an object with a non-empty string version, non-negative numeric counts when present and a tag array in each truthy section; a non-object non-array gets the first message |
| Schema.DecodeSource | src/types.ts:102-108 | a waterfall entry is missing exactly when it is `null` |
| Schema.DecodeSources | src/types.ts:110-129 | the typed list has one entry per JSON entry, in order |
| Schema.AcceptedIsWellFormed | src/remote/RemoteConfig.ts:194-226 | a document the schema accepts has a version, non-negative counts and tags in each present section |
| Schema.RejectedDocuments | src/remote/RemoteConfig.ts:194-226 | sample documents get the message of the first failing check |
| Schema.VersionAloneSuffices | src/remote/RemoteConfig.ts:194-226 | a version alone is a valid document |
| Remote.KeysFor | src/remote/RemoteConfig.ts:26-31 | the data, entity tag and timestamp keys are pairwise distinct |
| Remote.CachedEntry | src/remote/RemoteConfig.ts:151-170 | an entry exists only for a truthy parsed document and an integer-prefixed timestamp; a missing tag reads as "" |
| Remote.BuildRequest | src/remote/RemoteConfig.ts:98-115 | every request has the 10-second timeout |
| Remote.NetworkSpec | src/remote/RemoteConfig.ts:119-143 | a new document always passed the schema; `null` exactly for status 304 |
| Remote.FetchSpec | src/remote/RemoteConfig.ts:36-92 | a request is sent only for an accepted URL; whatever is returned is truthy |
| Remote.RemoteConfig.constructor | src/remote/RemoteConfig.ts:26-31 | keys are `storageKey` plus `:rc:data`, `:rc:etag`, `:rc:ts`; nothing sent yet |
| Remote.RemoteConfig.CacheConfig | src/remote/RemoteConfig.ts:175-181 | writes the document, the tag and the time under the three keys, nothing else |
| Remote.RemoteConfig.UpdateCacheTimestamp | src/remote/RemoteConfig.ts:186-189 | rewrites only the timestamp key |
| Remote.RemoteConfig.ClearCache | src/remote/RemoteConfig.ts:247-251 | removes exactly the three keys |
| Remote.RemoteConfig.FetchFromNetwork | src/remote/RemoteConfig.ts:97-146 | one request is logged; the outcome is `NetworkSpec`; only a new document is stored |
| Remote.RemoteConfig.Fetch | src/remote/RemoteConfig.ts:36-92 | result, storage and requests sent are those of `FetchSpec` |
| Remote.StoreEntry | src/remote/RemoteConfig.ts:175-181 | writes exactly the three cache keys, the timestamp as decimal text, and leaves every other key as it was |
| Remote.CacheRoundTrip | src/remote/RemoteConfig.ts:151-181 | what `cacheConfig` writes, `getCachedConfig` reads back unchanged |
| Remote.BadUrlFetchesNothing | src/remote/RemoteConfig.ts:37-91 | a refused URL yields nothing, sends nothing and writes nothing, even with a fresh cache |
| Remote.FreshCacheShortCircuits | src/remote/RemoteConfig.ts:49-54 | a cached copy younger than `refreshSec` is returned with no request |
| Remote.ZeroRefreshAlwaysRevalidates | src/remote/RemoteConfig.ts:49-57 | with `refreshSec` 0 every fetch goes to the network |
| Remote.ConditionalOnlyWithEtag | src/remote/RemoteConfig.ts:98-110 | `If-None-Match` is sent exactly when a non-empty cached tag exists, carrying that tag |
| Remote.NotModifiedRefreshesTimestampOnly | src/remote/RemoteConfig.ts:58-74 | a 304 returns the cached document and rewrites only the timestamp; without a cache, nothing |
| Remote.FailureServesStale | src/remote/RemoteConfig.ts:75-87 | any failure serves the cached copy, stale or not, and writes nothing |
| Remote.FreshDocumentIsCached | src/remote/RemoteConfig.ts:57-65 | a valid new document is returned and read back from the cache with its tag and time |
| Remote.SecondFetchServedFromCache | src/remote/RemoteConfig.ts:36-92 | a second fetch within `refreshSec` of storing a document returns it without a request |
| Remote.ClearedCacheRevalidates | src/remote/RemoteConfig.ts:247-251 | after `clearCache` the next fetch is an unconditional request |
| Policy.BuildAutoConfig | src/gbsdk.ts:619-633 | a URL is absent only when the caller gave none and no game was detected; `debug` is always set |
| Policy.WithDefaults | src/gbsdk.ts:66-74 | the stored config has refresh, cooldown, cap, debug, storage key and allow-list |
| Policy.OrDefault | src/gbsdk.ts:420-425 | `x \|\| d`: a non-zero value wins, 0 or absent gives the default; the result is 0 only when the default is |
| Policy.SelectABGroup | src/gbsdk.ts:443-450 | `default` without groups, otherwise one of the group names |
| Policy.CanShow | src/gbsdk.ts:149-177 | an ad may show exactly when not cooling down, not at the cap, and not killed for its kind |
| Policy.DenyReason | src/gbsdk.ts:225-237 | the reason is `cooldown`, `capped` or `blocked` |
| Policy.AdSources | src/gbsdk.ts:384-393 | sources exist exactly when the effective section for the kind has a source list, and are then that list |
| Policy.Record | src/gbsdk.ts:470-478 | the kind's counters become (now, count + 1), the other kind's are kept |
| Policy.LegacyRun | src/gbsdk.ts:285-351 | with the legacy adapter the tags played are a prefix of the list, in order, appended to the earlier plays; without it nothing is played; a loop that runs out played them all; no tags plays nothing; how each tag ends the loop is stated by `SettledTagEndsLoop`, `RewardSkipStopsLoop`, `FailedTagMovesOn`, `ShownMeansLastSucceeded` and `ThrewMeansLastRejected` |
| Policy.DefaultsWhenUnset | src/gbsdk.ts:66-74 | with no settings: refresh 900, cooldown 90, cap 20, key `gbsdk`, no allow-list, debug from the environment, the generated URL exactly when a game is detected |
| Policy.CallerSettingsWin | src/gbsdk.ts:66-74 | every setting the caller gives, 0 included, is the one stored |
| Policy.AutoConfigUrlIsAccepted | src/gbsdk.ts:638-639 | the generated URL passes the HTTPS and domain checks |
| Policy.EffectiveConfig | src/gbsdk.ts:420-438 | defines `getEffectiveConfig`; its precedence is stated by `EffectivePrecedence` and `NoGroupsNoOverride` |
| Policy.AdTags | src/gbsdk.ts:398-415 | defines `getAdTags`; stated by `RemoteTagsShadowLocal` and `LocalTagsAsFallback` |
| Policy.LoadSessions | src/gbsdk.ts:455-465 | defines `loadSessionData`; stated by `SessionsRoundTrip` and `NothingStoredKeepsCounters` |
| Policy.EffectivePrecedence | src/gbsdk.ts:420-438 | cooldown, cap, flags and sections come from the group, else the remote document, else the local value, else the default |
| Policy.NoGroupsNoOverride | src/gbsdk.ts:428-435 | without A/B groups no override applies |
| Policy.ZeroMeansDefault | src/gbsdk.ts:157-164 | a cooldown or cap of 0 behaves as 90 s or 20 shows |
| Policy.CooldownBoundary | src/gbsdk.ts:157-160 | exactly `cooldown × 1000` ms after the last show an ad may play, 1 ms earlier it may not and the reason is `cooldown` |
| Policy.DenyReasonExplains | src/gbsdk.ts:225-237 | on the same config and clock the reason names the first failing check |
| Policy.RemoteTagsShadowLocal | src/gbsdk.ts:398-415 | whenever the kind's effective section has `tags`, exactly that list is used; an empty one hides the local tags |
| Policy.LocalTagsAsFallback | src/gbsdk.ts:398-415 | with no section for the kind, or one without `tags`, the local list of that kind is used, or none |
| Policy.SessionsRoundTrip | src/gbsdk.ts:455-478 | what `updateSessionData` stores, `loadSessionData` reads back |
| Policy.NothingStoredKeepsCounters | src/gbsdk.ts:455-465 | nothing stored, or something unparseable, keeps the counters |
| Policy.RewardSkipStopsLoop | src/gbsdk.ts:295-306 | `skipped` ends the loop: shown for an interstitial, not for a rewarded ad |
| Policy.FailedTagMovesOn | src/gbsdk.ts:308 | `error`, `timeout` and `no_fill` hand over to the next tag |
| Policy.SettledTagEndsLoop | src/gbsdk.ts:291-300 | a rejected play ends the loop as a throw, a play that gives `ok` (or `skipped` for an interstitial) ends it as shown, each after that one play |
| Policy.ShownMeansLastSucceeded | src/gbsdk.ts:292-300 | a shown ad means the last tag played succeeded for the kind |
| Policy.ThrewMeansLastRejected | src/gbsdk.ts:291-317 | the loop ends as a throw only when the last tag played was rejected |
| Sdk.Recorded | src/gbsdk.ts:470-478 | recording a show changes only the counters and their storage |
| Sdk.WaterfallStep | src/gbsdk.ts:356-379 | `error` and no manager when there is none; otherwise exactly the outcome and new pool of the waterfall `Run` over the sources (the waterfall without its debug logging, see Left out) |
| Sdk.FetchRemote | src/gbsdk.ts:87-101 | a new client's first fetch: result and storage as `FetchSpec` |
| Sdk.GBSDK.constructor | src/gbsdk.ts:34-45 | not initialized, empty config, fresh counters, gesture required, no listeners, no manager |
| Sdk.GBSDK.Init | src/gbsdk.ts:51-130 | a second `init` changes nothing; the first stores the defaults, loads counters, fetches the remote document when a URL is set, builds the manager and legacy adapter, and is initialized exactly when the adapter loads |
| Sdk.GBSDK.LoadAdapters | src/gbsdk.ts:112-125 | a new empty manager, one more legacy adapter, initialized when its `load()` resolves |
| Sdk.GBSDK.Configure | src/gbsdk.ts:66-109 | defaults stored, counters loaded, remote document fetched when a URL is set |
| Sdk.GBSDK.LoadRemoteConfig | src/gbsdk.ts:87-109 | the document replaces the held one only when the fetch yields one; local storage as `FetchSpec` |
| Sdk.GBSDK.LoadSessionData | src/gbsdk.ts:455-465 | counters become those read from session storage |
| Sdk.GBSDK.UpdateSessionData | src/gbsdk.ts:470-478 | the state becomes `Recorded` |
| Sdk.GBSDK.CanShowAt | src/gbsdk.ts:149-177 | true exactly when initialized and the pacing check passes |
| Sdk.ShowSpec | src/gbsdk.ts:219-318 | defines `showAd` on values; stated by `OnlySuccessCounts`, `UninitializedShowFails` and the other `Sdk` lemmas |
| Sdk.Serve | src/gbsdk.ts:260-313 | defines the part of `showAd` after the pacing check; stated by `ServeCounts` |
| Sdk.GBSDK.ShowAd | src/gbsdk.ts:219-318 | result, state and adapters are those of `ShowSpec` |
| Sdk.GBSDK.ServeAd | src/gbsdk.ts:240-313 | after the pacing check: gesture flag cleared, then the result and state of `Serve` |
| Sdk.GBSDK.PlayWaterfall | src/gbsdk.ts:262-282 | the manager's new state and the outcome are `WaterfallStep`; a success for the kind is recorded and answered `ShowOk`, anything else is `no_fill` with the state unchanged |
| Sdk.GBSDK.PlayTags | src/gbsdk.ts:285-313 | the loop's end and plays are `LegacyRun`; only `Shown` is recorded |
| Sdk.GBSDK.Destroy | src/gbsdk.ts:202-214 | no longer initialized, all listeners removed, the legacy adapter destroyed once, nothing else changed |
| Sdk.GBSDK.GameStartedEvent | src/gbsdk.ts:182-187 | emits `game_started` with no data to exactly the registered listeners |
| Sdk.GBSDK.GameEndedEvent | src/gbsdk.ts:192-197 | emits `game_ended` with no data to exactly the registered listeners |
| Sdk.UninitializedShowFails | src/gbsdk.ts:220-222 | before `init` or after `destroy` a show is `error` and changes nothing |
| Sdk.ShowOutcomes | src/gbsdk.ts:219-318 | never `timeout`; success only for the kind asked and only once initialized; config, remote document and lifecycle unchanged |
| Sdk.ServeOutcomes | src/gbsdk.ts:260-313 | after the pacing check: never `timeout`, success only for the kind asked |
| Sdk.OnlySuccessCounts | src/gbsdk.ts:219-318 | only a success records (now, count + 1) for its kind and persists it; every failure leaves counters and storage alone |
| Sdk.ServeCounts | src/gbsdk.ts:260-313 | the same, after the pacing check |
| Sdk.DeniedShowChangesNothing | src/gbsdk.ts:225-237 | a denied show changes nothing and says `cooldown`, `capped` or `blocked` |
| Sdk.ConsistentDenialReason | src/gbsdk.ts:225-237 | with the same group draw and clock, the reason names the first failing check |
| Sdk.RedrawnDenialCanSayBlocked | src/gbsdk.ts:225-237 | with a second A/B draw, an ad held back by a long cooldown can be reported `blocked` with no kill switch set |
| Sdk.SourcesOrTags | src/gbsdk.ts:260-290 | non-empty sources use only the waterfall; otherwise only the tags, with the manager untouched; no tags is `no_fill` |
| Sdk.LegacyAnswer | src/gbsdk.ts:284-317 | without sources and with tags, the show answers `error` exactly when the loop ended on a throw, and a success (for the kind asked) exactly when it ended on a shown ad |
| Sdk.ErrorOnlyFromLegacyThrow | src/gbsdk.ts:314-317 | `error` after the pacing check comes only from a rejected legacy play, never from the waterfall as the model runs it (without debug logging, see Left out) |

## Left out

- JSON numbers are integers; fractional `cooldownSec`, `sessionCap` or times are not modelled.
- A field of the wrong JSON type in a remote document or A/B group is read as absent (the source casts without checking). A non-object group overrides nothing.
- Malformed stored session counters (`{"interstitial": 5}`) read as the default `{0, 0}` entry. A key set to `undefined` in the caller's settings counts as absent. An empty `configUrl` is `None`.
- The DOM: overlay, close button, CSS injection, the user-gesture internals and `setupOverlayEvents`.
- `detectGameMetadata` is reduced to "a game id was detected". The query string of `buildConfigUrl` is not modelled.
- `isDebugEnvironment` is an input. Debug logging is not modelled, apart from the finding below.
- Sdk.WaterfallStep: the controller runs the corrected waterfall `Run`, which ignores `debug`. The source passes `debug: config.debug || false` to `executeWaterfall` (src/gbsdk.ts:375); with `debug` on and a `null` source entry, its logging throws before the loop (src/adapters/waterfallManager.ts:30-45) and `showAd` answers `error` (src/gbsdk.ts:314-317), where the model skips the entry. The as-written waterfall is `Waterfall.RunAsWritten` (see Findings).
- Sdk.ErrorOnlyFromLegacyThrow: holds of the corrected waterfall only. With `debug` on and a `null` source entry, the source's `showAd` also answers `error` from the waterfall.
- Impression tracking (`trackImpression`, `trackAdImpression`), `generateSessionId` and `AdTracker` are not part of this model. They only report.
- `getTCF` is modelled on its own. Its one-second timer is reduced to how the call ends. Its use inside `playAdTag`/`playWaterfall` is left out, because the consent data only travels to the adapters, which are oracles.
- Signature verification always accepts, as the source does. Public-key handling has no effect.
- Overlapping `showAd` calls are not modelled, because each is modelled as atomic. Neither are races between `init` and `showAd`.
- Events that adapters raise through `onEvent` are not emitted in the model, because the adapters are oracles.
- Storage never throws in the model. The source's wrappers swallow those errors.
- The adapters (`PrebidAdapter`, `GAMAdapter`, `ImaVastAdapter`) and their script loading (`loadScriptOnce`, `fetchWithTimeout`, `appendQuery`) are oracles.
- The A/B draw is an input; `Math.random()` is not modelled.
- The controller's `destroy` does not destroy the waterfall's adapters, and neither does the model.
- Schema.Strings: a tag list keeps only its string elements. The source passes a non-string element on to the adapter's `play` (src/gbsdk.ts:291-292, src/adapters/waterfallManager.ts:205-210), where it is a foreign call; the model does not carry non-string tags.
- Where the unit tests of `waterfallManager.ts` expect otherwise, the model follows the code:
  - `src/adapters/waterfallManager.test.ts:149-159` expects `error` for empty VAST tags. The code continues to `no_fill`.
  - `src/adapters/waterfallManager.test.ts:104-127` expects a second VAST source to get a fresh adapter. The code reuses the live one.

## Findings

| source | as written | input that shows it | evidently intended | confidence | as-written member | corrected member |
|---|---|---|---|---|---|---|
| src/adapters/waterfallManager.ts:30-45 | with `ctx.debug` set, the logging reads `source.type` of every entry outside the `try`, so a `null` entry rejects the whole waterfall (and `showAd` answers `error`) | `debug: true`, sources `[null, {type: 'vast', vastTags: [tag]}]` with a VAST adapter that plays `ok` | a `null` entry is skipped like any failing source, with or without logging | not executed | Waterfall.DebugLoggingChangesOutcome | Waterfall.NullEntrySkipped |
