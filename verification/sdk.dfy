/** The `GBSDK` controller: the `initialized` lifecycle, `init` (the re-entry
    guard, the defaults, the remote document), `canShow`, `showAd` (pacing,
    the waterfall or the legacy tag loop, the outcome policy and the session
    counters), `destroy`, and the two game events. The page's clock, the
    network's answer, the A/B draws and the ad adapters are inputs. */
module Sdk {
  import opened JsValue
  import opened Types
  import opened Net
  import opened Remote
  import opened Schema
  import opened Waterfall
  import opened Policy
  import opened Events

  /** The controller state that `showAd` reads and writes. */
  datatype Ctl = Ctl(
    initialized: bool,
    config: GBInit,
    remoteDoc: Option<RemoteDoc>,
    sessions: Sessions,
    sessionStore: map<string, string>,
    legacyAdapter: bool,
    legacyPlays: seq<string>,
    userGestureRequired: bool)

  /** The four `Math.random()` group choices one `showAd` can make: in
      `canShow`, when explaining a denial, in `getAdSources`, in `getAdTags`. */
  datatype Draws = Draws(check: string, deny: string, sources: string, tags: string)

  predicate DrawsOk(remote: Option<RemoteDoc>, d: Draws) {
    DrawOk(remote, d.check) && DrawOk(remote, d.deny) && DrawOk(remote, d.sources) && DrawOk(remote, d.tags)
  }

  /** `updateSessionData(kind)` at time `at`: new counters, persisted. */
  function Recorded(c: Ctl, kind: AdKind, at: int, codec: Codec): (r: Ctl)
    ensures r == c.(sessions := r.sessions, sessionStore := r.sessionStore)
  {
    var s := Record(c.sessions, kind, at);
    c.(sessions := s, sessionStore := c.sessionStore[SessionKey(c.config) := codec.stringify(EncodeSessions(s))])
  }

  /** What the legacy loop's end makes of the show. */
  function LegacyResult(kind: AdKind, end: LegacyEnd): ShowResult {
    match end
    case Shown => ShowOk(kind)
    case RewardSkipped => ShowNo(Unfilled)
    case Exhausted => ShowNo(Unfilled)
    case Threw => ShowNo(Failed)
  }

  /** The waterfall step of `showAd`: `playWaterfall` answers 'error' when
      there is no manager. */
  function WaterfallStep(pool: Option<Pool>, sources: seq<AdSourceConfig>, kind: AdKind, env: Env): (r: (Outcome, Option<Pool>))
    ensures r.0 == Ok || r.0 == NoFill || r.0 == Error
    ensures r.1.Some? <==> pool.Some?
    ensures pool.None? ==> r == (Error, None)
    ensures pool.Some? ==> r.0 == Run(pool.value, sources, kind, env).0 && r.1 == Some(Run(pool.value, sources, kind, env).1)
  {
    match pool
    case None => (Error, None)
    case Some(p) =>
      var (o, p') := Run(p, sources, kind, env);
      (o, Some(p'))
  }

  /** `showAd(kind)`: the result, the controller state and the waterfall's
      adapters after it. `now` is the clock in `canShow`, `denyAt` the clock
      when a denial is explained, `doneAt` the clock when a shown ad is recorded. */
  function ShowSpec(c: Ctl, pool: Option<Pool>, kind: AdKind, now: int, denyAt: int, doneAt: int, draws: Draws,
                    env: Env, legacyPlay: (nat, string) -> Settled, codec: Codec): (r: (ShowResult, Ctl, Option<Pool>))
    requires DrawsOk(c.remoteDoc, draws)
  {
    if !c.initialized then (ShowNo(Failed), c, pool)
    else if !CanShow(EffectiveConfig(c.config, c.remoteDoc, draws.check), c.sessions.Get(kind), kind, now) then
      (ShowNo(DenyReason(EffectiveConfig(c.config, c.remoteDoc, draws.deny), c.sessions.Get(kind), denyAt)), c, pool)
    else
      Serve(c.(userGestureRequired := false), pool, kind, doneAt,
        AdSources(EffectiveConfig(c.config, c.remoteDoc, draws.sources), kind),
        AdTags(EffectiveConfig(c.config, c.remoteDoc, draws.tags), c.config, kind), env, legacyPlay, codec)
  }

  /** The part of `showAd` after the pacing check: the waterfall when the
      effective sources are non-empty, the legacy tags otherwise. */
  function Serve(c: Ctl, pool: Option<Pool>, kind: AdKind, doneAt: int, sources: Option<seq<AdSourceConfig>>, tags: seq<string>,
                 env: Env, legacyPlay: (nat, string) -> Settled, codec: Codec): (ShowResult, Ctl, Option<Pool>)
  {
    if sources.Some? && |sources.value| > 0 then
      var (o, pool') := WaterfallStep(pool, sources.value, kind, env);
      if Succeeded(kind, o) then (ShowOk(kind), Recorded(c, kind, doneAt, codec), pool')
      else (ShowNo(Unfilled), c, pool')
    else if |tags| == 0 then (ShowNo(Unfilled), c, pool)
    else
      var (end, plays) := LegacyRun(kind, tags, c.legacyAdapter, c.legacyPlays, legacyPlay);
      var c2 := c.(legacyPlays := plays);
      (LegacyResult(kind, end), if end == Shown then Recorded(c2, kind, doneAt, codec) else c2, pool)
  }

  /** The options `init` builds its `RemoteConfig` with. */
  function RemoteOptions(c: GBInit): Options
    requires c.configUrl.Some? && c.storageKey.Some? && c.refreshSec.Some?
  {
    Options(c.configUrl.value, c.storageKey.value, c.refreshSec.value, c.allowDomains.GetOr([]), c.publicKey, c.configAuth)
  }

  /** A new `RemoteConfig` over the given local storage, and its first `fetch()`. */
  method FetchRemote(options: Options, codec: Codec, store: map<string, string>, now: int, respondedAt: int, net: NetResult)
    returns (rc: RemoteConfig, fetched: Option<Json>, store': map<string, string>)
    ensures fresh(rc)
    ensures var f := FetchSpec(options, KeysFor(options.storageKey), codec, store, now, respondedAt, net);
      fetched == f.result && store' == f.store && rc.storage == f.store
  {
    rc := new RemoteConfig(options, codec, store);
    fetched := rc.Fetch(now, respondedAt, net);
    store' := rc.storage;
  }

  class GBSDK<L(==)> {
    /** The controller is an event emitter. */
    const events: EventEmitter<L>
    const codec: Codec
    var initialized: bool
    var config: GBInit
    /** `state.remoteConfig` */
    var remoteDoc: Option<RemoteDoc>
    var sessions: Sessions
    /** The page's session storage and local storage. */
    var sessionStore: map<string, string>
    var localStore: map<string, string>
    /** `remoteConfig` */
    var remoteClient: RemoteConfig?
    var waterfall: WaterfallManager?
    /** The legacy IMA adapter: whether one exists, how many were built, and
        how often `destroy` was called on one. */
    var legacyAdapter: bool
    var legacyBuilt: nat
    var legacyDestroyed: nat
    /** Every tag the legacy adapter was asked to play. */
    var legacyPlays: seq<string>
    var userGestureRequired: bool

    function State(): Ctl
      reads this
    {
      Ctl(initialized, config, remoteDoc, sessions, sessionStore, legacyAdapter, legacyPlays, userGestureRequired)
    }

    function Pool(): Option<Pool>
      reads this, waterfall
    {
      if waterfall == null then None else Some(waterfall.State())
    }

    ghost predicate Valid()
      reads this, events, waterfall
    {
      && events.Valid()
      && (waterfall != null ==> waterfall.Valid())
      && (initialized ==> waterfall != null && legacyAdapter)
    }

    constructor (codec: Codec, sessionStore: map<string, string>, localStore: map<string, string>)
      ensures Valid() && fresh(events) && events.Reg() == EmptyRegistry()
      ensures State() == Ctl(false, NoConfig, None, FreshSessions, sessionStore, false, [], true)
      ensures this.codec == codec && this.localStore == localStore
      ensures remoteClient == null && waterfall == null && legacyBuilt == 0 && legacyDestroyed == 0
    {
      events := new EventEmitter();
      this.codec := codec;
      initialized := false;
      config := NoConfig;
      remoteDoc := None;
      sessions := FreshSessions;
      this.sessionStore := sessionStore;
      this.localStore := localStore;
      remoteClient := null;
      waterfall := null;
      legacyAdapter := false;
      legacyBuilt := 0;
      legacyDestroyed := 0;
      legacyPlays := [];
      userGestureRequired := true;
    }

    /** `init(config)`. The remote fetch checks the clock at `now` and hears
        back at `respondedAt`; `legacyLoadOk` is whether the legacy adapter's
        `load()` resolves. The result is whether `init` resolves. */
    method Init(user: GBInit, gameDetected: bool, debugEnv: bool, now: int, respondedAt: int, net: NetResult, legacyLoadOk: bool)
      returns (resolved: bool)
      requires Valid()
      modifies this
      ensures Valid()
      ensures old(initialized) ==>
        && resolved && State() == old(State()) && localStore == old(localStore)
        && remoteClient == old(remoteClient) && waterfall == old(waterfall) && legacyBuilt == old(legacyBuilt)
      ensures !old(initialized) ==>
        && config == WithDefaults(user, gameDetected, debugEnv)
        && sessions == LoadSessions(old(sessionStore), SessionKey(config), codec, old(sessions))
        && sessionStore == old(sessionStore)
      ensures !old(initialized) && config.configUrl.None? ==>
        remoteDoc == old(remoteDoc) && localStore == old(localStore) && remoteClient == old(remoteClient)
      ensures !old(initialized) && config.configUrl.Some? ==>
        var f := FetchSpec(RemoteOptions(config), KeysFor(config.storageKey.value), codec, old(localStore), now, respondedAt, net);
        && localStore == f.store
        && remoteDoc == (if f.result.Some? then Some(DecodeDoc(f.result.value)) else old(remoteDoc))
        && remoteClient != null && fresh(remoteClient)
      ensures !old(initialized) ==>
        && waterfall != null && fresh(waterfall) && Pool() == Some(EmptyPool)
        && legacyAdapter && legacyBuilt == old(legacyBuilt) + 1
        && legacyPlays == old(legacyPlays) && userGestureRequired == old(userGestureRequired)
        && initialized == legacyLoadOk && resolved == legacyLoadOk
    {
      if initialized {
        return true;
      }
      Configure(user, gameDetected, debugEnv, now, respondedAt, net);
      resolved := LoadAdapters(legacyLoadOk);
    }

    /** The last steps of `init`: a new waterfall manager, a new legacy
        adapter, and the flag once that adapter's `load()` resolves. */
    method LoadAdapters(legacyLoadOk: bool) returns (resolved: bool)
      requires events.Valid()
      modifies this
      ensures Valid()
      ensures waterfall != null && fresh(waterfall) && Pool() == Some(EmptyPool)
      ensures State() == old(State()).(legacyAdapter := true, initialized := if legacyLoadOk then true else old(initialized))
      ensures legacyBuilt == old(legacyBuilt) + 1 && legacyDestroyed == old(legacyDestroyed)
      ensures localStore == old(localStore) && remoteClient == old(remoteClient)
      ensures resolved == legacyLoadOk
    {
      waterfall := new WaterfallManager();
      legacyAdapter := true;
      legacyBuilt := legacyBuilt + 1;
      if !legacyLoadOk {
        return false;
      }
      initialized := true;
      resolved := true;
    }

    /** The steps of `init` before the adapters: the defaults, the stored
        counters, and the remote document when there is a URL. */
    method Configure(user: GBInit, gameDetected: bool, debugEnv: bool, now: int, respondedAt: int, net: NetResult)
      modifies this
      ensures config == WithDefaults(user, gameDetected, debugEnv)
      ensures sessions == LoadSessions(old(sessionStore), SessionKey(config), codec, old(sessions))
      ensures config.configUrl.None? ==>
        remoteDoc == old(remoteDoc) && localStore == old(localStore) && remoteClient == old(remoteClient)
      ensures config.configUrl.Some? ==>
        var f := FetchSpec(RemoteOptions(config), KeysFor(config.storageKey.value), codec, old(localStore), now, respondedAt, net);
        && localStore == f.store
        && remoteDoc == (if f.result.Some? then Some(DecodeDoc(f.result.value)) else old(remoteDoc))
        && remoteClient != null && fresh(remoteClient)
      ensures State() == old(State()).(config := config, sessions := sessions, remoteDoc := remoteDoc)
      ensures waterfall == old(waterfall) && legacyBuilt == old(legacyBuilt) && legacyDestroyed == old(legacyDestroyed)
    {
      config := WithDefaults(user, gameDetected, debugEnv);
      LoadSessionData();
      if config.configUrl.Some? {
        LoadRemoteConfig(now, respondedAt, net);
      }
    }

    /** The remote step of `init`: a new client fetches the document, which
        replaces the held one only when the fetch yields one. */
    method LoadRemoteConfig(now: int, respondedAt: int, net: NetResult)
      requires config.configUrl.Some? && config.storageKey.Some? && config.refreshSec.Some?
      modifies this
      ensures var f := FetchSpec(RemoteOptions(old(config)), KeysFor(old(config).storageKey.value), codec, old(localStore), now, respondedAt, net);
        && localStore == f.store
        && remoteDoc == (if f.result.Some? then Some(DecodeDoc(f.result.value)) else old(remoteDoc))
      ensures State() == old(State()).(remoteDoc := remoteDoc)
      ensures remoteClient != null && fresh(remoteClient) && waterfall == old(waterfall)
      ensures legacyBuilt == old(legacyBuilt) && legacyDestroyed == old(legacyDestroyed)
    {
      ghost var f := FetchSpec(RemoteOptions(config), KeysFor(config.storageKey.value), codec, localStore, now, respondedAt, net);
      var rc, fetched, store := FetchRemote(RemoteOptions(config), codec, localStore, now, respondedAt, net);
      assert fetched == f.result && store == f.store;
      assert State() == old(State());
      remoteClient := rc;
      localStore := store;
      if fetched.Some? {
        remoteDoc := Some(DecodeDoc(fetched.value));
      }
    }

    /** `loadSessionData()` */
    method LoadSessionData()
      modifies this
      ensures sessions == LoadSessions(old(sessionStore), SessionKey(config), codec, old(sessions))
      ensures State() == old(State()).(sessions := sessions)
      ensures localStore == old(localStore) && remoteClient == old(remoteClient) && waterfall == old(waterfall)
      ensures legacyBuilt == old(legacyBuilt) && legacyDestroyed == old(legacyDestroyed)
    {
      sessions := LoadSessions(sessionStore, SessionKey(config), codec, sessions);
    }

    /** `updateSessionData(kind)` at time `at`. */
    method UpdateSessionData(kind: AdKind, at: int)
      modifies this
      ensures State() == Recorded(old(State()), kind, at, codec)
      ensures localStore == old(localStore) && remoteClient == old(remoteClient) && waterfall == old(waterfall)
      ensures legacyBuilt == old(legacyBuilt) && legacyDestroyed == old(legacyDestroyed)
    {
      sessions := Record(sessions, kind, at);
      sessionStore := sessionStore[SessionKey(config) := codec.stringify(EncodeSessions(sessions))];
    }

    /** `canShow(kind)` at time `now`, with group choice `draw`. */
    function CanShowAt(kind: AdKind, now: int, draw: string): (ok: bool)
      requires DrawOk(remoteDoc, draw)
      reads this
      ensures ok ==> initialized
      ensures ok <==> initialized && CanShow(EffectiveConfig(config, remoteDoc, draw), sessions.Get(kind), kind, now)
    {
      if !initialized then false
      else CanShow(EffectiveConfig(config, remoteDoc, draw), sessions.Get(kind), kind, now)
    }

    /** `showAd(kind)` (`showInterstitial` and `showRewarded`). */
    method ShowAd(kind: AdKind, now: int, denyAt: int, doneAt: int, draws: Draws, env: Env, legacyPlay: (nat, string) -> Settled)
      returns (r: ShowResult)
      requires Valid() && DrawsOk(remoteDoc, draws)
      modifies this, waterfall
      ensures Valid()
      ensures (r, State(), Pool()) == ShowSpec(old(State()), old(Pool()), kind, now, denyAt, doneAt, draws, env, legacyPlay, codec)
      ensures localStore == old(localStore) && remoteClient == old(remoteClient) && waterfall == old(waterfall)
      ensures legacyBuilt == old(legacyBuilt) && legacyDestroyed == old(legacyDestroyed)
    {
      if !initialized {
        return ShowNo(Failed);
      }
      if !CanShow(EffectiveConfig(config, remoteDoc, draws.check), sessions.Get(kind), kind, now) {
        return ShowNo(DenyReason(EffectiveConfig(config, remoteDoc, draws.deny), sessions.Get(kind), denyAt));
      }
      r := ServeAd(kind, doneAt, AdSources(EffectiveConfig(config, remoteDoc, draws.sources), kind),
        AdTags(EffectiveConfig(config, remoteDoc, draws.tags), config, kind), env, legacyPlay);
    }

    /** `showAd` once the pacing check has passed: the gesture flag is
        cleared, then the waterfall or the legacy tags. */
    method ServeAd(kind: AdKind, doneAt: int, sources: Option<seq<AdSourceConfig>>, tags: seq<string>,
                   env: Env, legacyPlay: (nat, string) -> Settled) returns (r: ShowResult)
      requires Valid() && initialized
      modifies this, waterfall
      ensures Valid()
      ensures (r, State(), Pool()) == Serve(old(State()).(userGestureRequired := false), old(Pool()), kind, doneAt, sources, tags, env, legacyPlay, codec)
      ensures localStore == old(localStore) && remoteClient == old(remoteClient) && waterfall == old(waterfall)
      ensures legacyBuilt == old(legacyBuilt) && legacyDestroyed == old(legacyDestroyed)
    {
      if userGestureRequired {
        userGestureRequired := false;
      }
      if sources.Some? && |sources.value| > 0 {
        r := PlayWaterfall(sources.value, kind, doneAt, env);
        return;
      }
      if |tags| == 0 {
        return ShowNo(Unfilled);
      }
      r := PlayTags(kind, tags, doneAt, legacyPlay);
    }

    /** The waterfall branch of `showAd` (`playWaterfall` and what follows it). */
    method PlayWaterfall(sources: seq<AdSourceConfig>, kind: AdKind, doneAt: int, env: Env) returns (r: ShowResult)
      requires waterfall != null && waterfall.Valid()
      modifies this, waterfall
      ensures waterfall == old(waterfall) && waterfall.Valid()
      ensures var (o, pool) := WaterfallStep(old(Pool()), sources, kind, env);
        && Pool() == pool
        && r == (if Succeeded(kind, o) then ShowOk(kind) else ShowNo(Unfilled))
        && State() == (if Succeeded(kind, o) then Recorded(old(State()), kind, doneAt, codec) else old(State()))
      ensures localStore == old(localStore) && remoteClient == old(remoteClient)
      ensures legacyBuilt == old(legacyBuilt) && legacyDestroyed == old(legacyDestroyed)
    {
      var o := waterfall.ExecuteWaterfall(sources, kind, env);
      if Succeeded(kind, o) {
        UpdateSessionData(kind, doneAt);
        return ShowOk(kind);
      }
      return ShowNo(Unfilled);
    }

    /** The `for (const tag of tags)` loop of `showAd`. */
    method PlayTags(kind: AdKind, tags: seq<string>, doneAt: int, legacyPlay: (nat, string) -> Settled) returns (r: ShowResult)
      modifies this
      ensures var (end, plays) := LegacyRun(kind, tags, old(legacyAdapter), old(legacyPlays), legacyPlay);
        var c := old(State()).(legacyPlays := plays);
        r == LegacyResult(kind, end) && State() == (if end == Shown then Recorded(c, kind, doneAt, codec) else c)
      ensures localStore == old(localStore) && remoteClient == old(remoteClient) && waterfall == old(waterfall)
      ensures legacyBuilt == old(legacyBuilt) && legacyDestroyed == old(legacyDestroyed)
    {
      var i := 0;
      while i < |tags|
        invariant 0 <= i <= |tags|
        invariant LegacyRun(kind, tags, old(legacyAdapter), old(legacyPlays), legacyPlay)
                  == LegacyRun(kind, tags[i..], legacyAdapter, legacyPlays, legacyPlay)
        invariant State() == old(State()).(legacyPlays := legacyPlays)
        invariant localStore == old(localStore) && remoteClient == old(remoteClient) && waterfall == old(waterfall)
        invariant legacyBuilt == old(legacyBuilt) && legacyDestroyed == old(legacyDestroyed)
      {
        var tag := tags[i];
        var settled: Settled;
        if legacyAdapter {
          settled := legacyPlay(|legacyPlays|, tag);
          legacyPlays := legacyPlays + [tag];
        } else {
          settled := Resolved(Error);
        }
        assert tags[i..][1..] == tags[i + 1..];
        match settled {
          case Rejected =>
            return ShowNo(Failed);
          case Resolved(o) =>
            if Succeeded(kind, o) {
              UpdateSessionData(kind, doneAt);
              return ShowOk(kind);
            }
            if o == Skipped && kind == Rewarded {
              return ShowNo(Unfilled);
            }
        }
        i := i + 1;
      }
      r := ShowNo(Unfilled);
    }

    /** `destroy()`: the legacy adapter is told to clean up (and kept), every
        listener goes, and the controller is no longer initialized. The
        waterfall's adapters are left as they are. */
    method Destroy()
      requires Valid()
      modifies this, events
      ensures Valid() && !initialized
      ensures State() == old(State()).(initialized := false)
      ensures events.Reg() == old(events.Reg()).RemoveAll(None)
      ensures legacyDestroyed == old(legacyDestroyed) + (if legacyAdapter then 1 else 0)
      ensures waterfall == old(waterfall) && Pool() == old(Pool())
      ensures localStore == old(localStore) && remoteClient == old(remoteClient) && legacyBuilt == old(legacyBuilt)
    {
      if legacyAdapter {
        legacyDestroyed := legacyDestroyed + 1;
      }
      events.RemoveAllListeners(None);
      initialized := false;
    }

    /** `gameStarted()` */
    method GameStartedEvent(react: (L, nat) -> Reaction<L>) returns (delivered: seq<Delivery<L>>)
      requires Valid()
      modifies events
      ensures Valid()
      ensures |delivered| == old(events.Reg()).Count(GameStarted)
      ensures forall i :: 0 <= i < |delivered| ==> delivered[i] == Delivery(old(events.Reg()).Listeners(GameStarted)[i], None)
      ensures events.Reg() == AfterListeners(old(events.Reg()), old(events.Reg()).Listeners(GameStarted), react)
    {
      delivered := events.Emit(GameStarted, None, react);
    }

    /** `gameEnded()` */
    method GameEndedEvent(react: (L, nat) -> Reaction<L>) returns (delivered: seq<Delivery<L>>)
      requires Valid()
      modifies events
      ensures Valid()
      ensures |delivered| == old(events.Reg()).Count(GameEnded)
      ensures forall i :: 0 <= i < |delivered| ==> delivered[i] == Delivery(old(events.Reg()).Listeners(GameEnded)[i], None)
      ensures events.Reg() == AfterListeners(old(events.Reg()), old(events.Reg()).Listeners(GameEnded), react)
    {
      delivered := events.Emit(GameEnded, None, react);
    }
  }

  // ----- properties -----

  /** Before `init` and after `destroy`, a show fails with 'error' and changes
      nothing. */
  lemma UninitializedShowFails(c: Ctl, pool: Option<Pool>, kind: AdKind, now: int, denyAt: int, doneAt: int, draws: Draws,
                               env: Env, legacyPlay: (nat, string) -> Settled, codec: Codec)
    requires !c.initialized && DrawsOk(c.remoteDoc, draws)
    ensures ShowSpec(c, pool, kind, now, denyAt, doneAt, draws, env, legacyPlay, codec) == (ShowNo(Failed), c, pool)
  {
  }

  /** The outcome policy: a show is a success only for the kind asked and only
      once initialized, never ends in 'timeout', and leaves the configuration,
      the remote document and the lifecycle flag as they were. */
  lemma ShowOutcomes(c: Ctl, pool: Option<Pool>, kind: AdKind, now: int, denyAt: int, doneAt: int, draws: Draws,
                     env: Env, legacyPlay: (nat, string) -> Settled, codec: Codec)
    requires DrawsOk(c.remoteDoc, draws)
    ensures var (r, c', _) := ShowSpec(c, pool, kind, now, denyAt, doneAt, draws, env, legacyPlay, codec);
      && r != ShowNo(TimedOut)
      && (r.ShowOk? ==> r.kind == kind && c.initialized)
      && c'.config == c.config && c'.remoteDoc == c.remoteDoc && c'.initialized == c.initialized
  {
    if c.initialized && CanShow(EffectiveConfig(c.config, c.remoteDoc, draws.check), c.sessions.Get(kind), kind, now) {
      ServeOutcomes(c.(userGestureRequired := false), pool, kind, doneAt,
        AdSources(EffectiveConfig(c.config, c.remoteDoc, draws.sources), kind),
        AdTags(EffectiveConfig(c.config, c.remoteDoc, draws.tags), c.config, kind), env, legacyPlay, codec);
    }
  }

  /** After the pacing check, only the kind asked can succeed, nothing ends
      in 'timeout', and the configuration and lifecycle are left alone. */
  lemma ServeOutcomes(c: Ctl, pool: Option<Pool>, kind: AdKind, doneAt: int, sources: Option<seq<AdSourceConfig>>, tags: seq<string>,
                      env: Env, legacyPlay: (nat, string) -> Settled, codec: Codec)
    ensures var out := Serve(c, pool, kind, doneAt, sources, tags, env, legacyPlay, codec);
      && out.0 != ShowNo(TimedOut)
      && (out.0.ShowOk? ==> out.0.kind == kind)
      && out.1.config == c.config && out.1.remoteDoc == c.remoteDoc && out.1.initialized == c.initialized
  {
    var out := Serve(c, pool, kind, doneAt, sources, tags, env, legacyPlay, codec);
    if sources.Some? && |sources.value| > 0 {
      var o := WaterfallStep(pool, sources.value, kind, env).0;
      assert out.0 == if Succeeded(kind, o) then ShowOk(kind) else ShowNo(Unfilled);
      assert out.1 == if Succeeded(kind, o) then Recorded(c, kind, doneAt, codec) else c;
    } else if |tags| > 0 {
      var run := LegacyRun(kind, tags, c.legacyAdapter, c.legacyPlays, legacyPlay);
      var c2 := c.(legacyPlays := run.1);
      assert out.0 == LegacyResult(kind, run.0) && LegacyResult(kind, run.0) != ShowNo(TimedOut);
      assert out.1 == if run.0 == Shown then Recorded(c2, kind, doneAt, codec) else c2;
    }
  }

  /** Only a shown ad moves the counters: that kind's entry becomes (`doneAt`,
      one more show) and is persisted under the session key, the other kind's
      entry stays; every failure leaves counters and storage alone. */
  lemma OnlySuccessCounts(c: Ctl, pool: Option<Pool>, kind: AdKind, now: int, denyAt: int, doneAt: int, draws: Draws,
                          env: Env, legacyPlay: (nat, string) -> Settled, codec: Codec)
    requires DrawsOk(c.remoteDoc, draws)
    ensures var (r, c', _) := ShowSpec(c, pool, kind, now, denyAt, doneAt, draws, env, legacyPlay, codec);
      && (r.ShowOk? ==> c'.sessions == Record(c.sessions, kind, doneAt)
                        && c'.sessionStore == c.sessionStore[SessionKey(c.config) := codec.stringify(EncodeSessions(c'.sessions))])
      && (r.ShowNo? ==> c'.sessions == c.sessions && c'.sessionStore == c.sessionStore)
  {
    if c.initialized && CanShow(EffectiveConfig(c.config, c.remoteDoc, draws.check), c.sessions.Get(kind), kind, now) {
      ServeCounts(c.(userGestureRequired := false), pool, kind, doneAt,
        AdSources(EffectiveConfig(c.config, c.remoteDoc, draws.sources), kind),
        AdTags(EffectiveConfig(c.config, c.remoteDoc, draws.tags), c.config, kind), env, legacyPlay, codec);
    }
  }

  /** After the pacing check, a shown ad records one more show of its kind
      and persists it; anything else leaves the counters and storage alone. */
  lemma ServeCounts(c: Ctl, pool: Option<Pool>, kind: AdKind, doneAt: int, sources: Option<seq<AdSourceConfig>>, tags: seq<string>,
                    env: Env, legacyPlay: (nat, string) -> Settled, codec: Codec)
    ensures var out := Serve(c, pool, kind, doneAt, sources, tags, env, legacyPlay, codec);
      && (out.0.ShowOk? ==> out.1.sessions == Record(c.sessions, kind, doneAt)
                            && out.1.sessionStore == c.sessionStore[SessionKey(c.config) := codec.stringify(EncodeSessions(out.1.sessions))])
      && (out.0.ShowNo? ==> out.1.sessions == c.sessions && out.1.sessionStore == c.sessionStore)
  {
    var out := Serve(c, pool, kind, doneAt, sources, tags, env, legacyPlay, codec);
    if sources.Some? && |sources.value| > 0 {
      var o := WaterfallStep(pool, sources.value, kind, env).0;
      assert out.0.ShowOk? == Succeeded(kind, o);
      assert out.1 == if Succeeded(kind, o) then Recorded(c, kind, doneAt, codec) else c;
    } else if |tags| > 0 {
      var run := LegacyRun(kind, tags, c.legacyAdapter, c.legacyPlays, legacyPlay);
      var c2 := c.(legacyPlays := run.1);
      assert out.0.ShowOk? == (run.0 == Shown);
      assert out.1 == if run.0 == Shown then Recorded(c2, kind, doneAt, codec) else c2;
    }
  }

  /** A denied show changes nothing and reports a pacing reason. */
  lemma DeniedShowChangesNothing(c: Ctl, pool: Option<Pool>, kind: AdKind, now: int, denyAt: int, doneAt: int, draws: Draws,
                                 env: Env, legacyPlay: (nat, string) -> Settled, codec: Codec)
    requires DrawsOk(c.remoteDoc, draws) && c.initialized
    requires !CanShow(EffectiveConfig(c.config, c.remoteDoc, draws.check), c.sessions.Get(kind), kind, now)
    ensures var r := ShowSpec(c, pool, kind, now, denyAt, doneAt, draws, env, legacyPlay, codec);
      r.1 == c && r.2 == pool && r.0.ShowNo? && r.0.reason in {Cooldown, Capped, Blocked}
  {
  }

  /** When the denial is explained with the same group and clock that denied
      it, the reason names the first failing check. */
  lemma ConsistentDenialReason(c: Ctl, pool: Option<Pool>, kind: AdKind, now: int, doneAt: int, draws: Draws,
                               env: Env, legacyPlay: (nat, string) -> Settled, codec: Codec)
    requires DrawsOk(c.remoteDoc, draws) && c.initialized && draws.deny == draws.check
    requires !CanShow(EffectiveConfig(c.config, c.remoteDoc, draws.check), c.sessions.Get(kind), kind, now)
    ensures var e := EffectiveConfig(c.config, c.remoteDoc, draws.check);
      var s := c.sessions.Get(kind);
      var r := ShowSpec(c, pool, kind, now, now, doneAt, draws, env, legacyPlay, codec).0;
      && (r == ShowNo(Cooldown) <==> CoolingDown(e, s, now))
      && (r == ShowNo(Capped) <==> !CoolingDown(e, s, now) && AtCap(e, s))
      && (r == ShowNo(Blocked) <==> !CoolingDown(e, s, now) && !AtCap(e, s) && Killed(e, kind))
  {
    DenyReasonExplains(EffectiveConfig(c.config, c.remoteDoc, draws.check), c.sessions.Get(kind), kind, now);
  }

  /** The denial is explained with a second group draw: with one group holding
      a long cooldown and another a short one, an ad that the long cooldown
      held back is reported as 'blocked' although no kill switch is set. */
  lemma RedrawnDenialCanSayBlocked(pool: Option<Pool>, env: Env, legacyPlay: (nat, string) -> Settled, codec: Codec)
    ensures var groups := map["slow" := EmptyDoc.(cooldownSec := Some(1000)), "fast" := EmptyDoc.(cooldownSec := Some(1))];
      var doc := EmptyDoc.(ab := Some(AbConfig(None, Some(groups))));
      var c := Ctl(true, NoConfig, Some(doc), FreshSessions, map[], true, [], false);
      var draws := Draws("slow", "fast", "slow", "slow");
      && DrawsOk(c.remoteDoc, draws)
      && !CanShow(EffectiveConfig(c.config, c.remoteDoc, draws.check), c.sessions.Get(Interstitial), Interstitial, 5000)
      && !Killed(EffectiveConfig(c.config, c.remoteDoc, draws.check), Interstitial)
      && ShowSpec(c, pool, Interstitial, 5000, 5000, 5000, draws, env, legacyPlay, codec).0 == ShowNo(Blocked)
  {
    var groups := map["slow" := EmptyDoc.(cooldownSec := Some(1000)), "fast" := EmptyDoc.(cooldownSec := Some(1))];
    var doc := EmptyDoc.(ab := Some(AbConfig(None, Some(groups))));
    assert |groups| == 2 by {
      assert groups.Keys == {"slow", "fast"};
    }
    assert Groups(Some(doc)) == Some(groups);
  }

  /** Where the ads come from: non-empty sources go to the waterfall only,
      otherwise the legacy tags only (the waterfall's adapters untouched), and
      no tags at all is 'no_fill'. */
  lemma SourcesOrTags(c: Ctl, pool: Option<Pool>, kind: AdKind, now: int, denyAt: int, doneAt: int, draws: Draws,
                      env: Env, legacyPlay: (nat, string) -> Settled, codec: Codec)
    requires DrawsOk(c.remoteDoc, draws) && c.initialized
    requires CanShow(EffectiveConfig(c.config, c.remoteDoc, draws.check), c.sessions.Get(kind), kind, now)
    ensures var (r, c', pool') := ShowSpec(c, pool, kind, now, denyAt, doneAt, draws, env, legacyPlay, codec);
      var sources := AdSources(EffectiveConfig(c.config, c.remoteDoc, draws.sources), kind);
      var tags := AdTags(EffectiveConfig(c.config, c.remoteDoc, draws.tags), c.config, kind);
      && !c'.userGestureRequired
      && (sources.Some? && |sources.value| > 0 ==>
            c'.legacyPlays == c.legacyPlays && pool' == WaterfallStep(pool, sources.value, kind, env).1
            && (r.ShowOk? <==> WaterfallStep(pool, sources.value, kind, env).0 == Ok))
      && (!(sources.Some? && |sources.value| > 0) ==> pool' == pool)
      && (!(sources.Some? && |sources.value| > 0) && tags == [] ==> r == ShowNo(Unfilled) && c'.legacyPlays == c.legacyPlays)
  {
  }

  /** Without sources the show's answer is the legacy loop's end: `error`
      exactly when a play threw, a success exactly when an ad was shown. */
  lemma LegacyAnswer(c: Ctl, pool: Option<Pool>, kind: AdKind, doneAt: int, tags: seq<string>,
                     env: Env, legacyPlay: (nat, string) -> Settled, codec: Codec)
    requires tags != []
    ensures var out := Serve(c, pool, kind, doneAt, None, tags, env, legacyPlay, codec);
      var end := LegacyRun(kind, tags, c.legacyAdapter, c.legacyPlays, legacyPlay).0;
      (out.0 == ShowNo(Failed) <==> end == Threw)
      && (out.0.ShowOk? <==> end == Shown)
      && (out.0.ShowOk? ==> out.0 == ShowOk(kind))
  {
  }

  /** The controller never reports a waterfall 'error': a failed waterfall is
      'no_fill'; only a legacy adapter's rejected play gives 'error'. */
  lemma ErrorOnlyFromLegacyThrow(c: Ctl, pool: Option<Pool>, kind: AdKind, now: int, denyAt: int, doneAt: int, draws: Draws,
                                 env: Env, legacyPlay: (nat, string) -> Settled, codec: Codec)
    requires DrawsOk(c.remoteDoc, draws) && c.initialized
    requires ShowSpec(c, pool, kind, now, denyAt, doneAt, draws, env, legacyPlay, codec).0 == ShowNo(Failed)
    ensures var sources := AdSources(EffectiveConfig(c.config, c.remoteDoc, draws.sources), kind);
      var tags := AdTags(EffectiveConfig(c.config, c.remoteDoc, draws.tags), c.config, kind);
      !(sources.Some? && |sources.value| > 0)
      && LegacyRun(kind, tags, c.legacyAdapter, c.legacyPlays, legacyPlay).0 == Threw
  {
  }
}
