/** The controller's pure policy: the init configuration and its defaults, the
    effective configuration (defaults, local, remote document, A/B group), the
    pacing check and the deny reason, where ads come from, what counts as a
    shown ad, the session counters' storage form, and the legacy tag loop. */
module Policy {
  import opened JsValue
  import opened Types
  import opened Text
  import opened Net
  import opened Remote
  import opened Schema
  import opened Waterfall

  /** `GBInit`. A `configUrl` that is absent or empty is `None`; a present one
      is kept as its protocol and host. */
  datatype GBInit = GBInit(
    configUrl: Option<Url>,
    configAuth: Option<AuthHeader>,
    refreshSec: Option<int>,
    allowDomains: Option<seq<string>>,
    publicKey: Option<string>,
    interstitialTags: Option<seq<string>>,
    rewardedTags: Option<seq<string>>,
    cooldownSec: Option<int>,
    sessionCap: Option<int>,
    debug: Option<bool>,
    storageKey: Option<string>)

  /** `{}` */
  const NoConfig := GBInit(None, None, None, None, None, None, None, None, None, None, None)

  /** The host the generated config URL points at (its query string carries
      the detected game and is not part of this model). */
  const AutoConfigUrl := Url("https:", "cdn.game-buster.com")

  /** The defaults `init` spreads the caller's configuration over. */
  const Defaults := NoConfig.(refreshSec := Some(900), cooldownSec := Some(90), sessionCap := Some(20),
                              debug := Some(false), storageKey := Some("gbsdk"), allowDomains := Some([]))

  /** `top ?? base` for one key of an object spread: a key the top object has wins. */
  function Over<T>(base: Option<T>, top: Option<T>): Option<T> {
    if top.Some? then top else base
  }

  /** `{...base, ...top}` */
  function Spread(base: GBInit, top: GBInit): GBInit {
    GBInit(Over(base.configUrl, top.configUrl), Over(base.configAuth, top.configAuth),
      Over(base.refreshSec, top.refreshSec), Over(base.allowDomains, top.allowDomains),
      Over(base.publicKey, top.publicKey), Over(base.interstitialTags, top.interstitialTags),
      Over(base.rewardedTags, top.rewardedTags), Over(base.cooldownSec, top.cooldownSec),
      Over(base.sessionCap, top.sessionCap), Over(base.debug, top.debug), Over(base.storageKey, top.storageKey))
  }

  /** `buildAutoConfig`: the generated URL when none is given and a game id was
      detected; the environment's debug setting when `debug` is not given. */
  function BuildAutoConfig(user: GBInit, gameDetected: bool, debugEnv: bool): (c: GBInit)
    ensures c.configUrl.None? ==> user.configUrl.None? && !gameDetected
    ensures c.debug.Some?
  {
    var c := if user.configUrl.None? && gameDetected then user.(configUrl := Some(AutoConfigUrl)) else user;
    if c.debug.None? then c.(debug := Some(debugEnv)) else c
  }

  /** The configuration `init` stores. */
  function WithDefaults(user: GBInit, gameDetected: bool, debugEnv: bool): (c: GBInit)
    ensures c.refreshSec.Some? && c.cooldownSec.Some? && c.sessionCap.Some?
    ensures c.debug.Some? && c.storageKey.Some? && c.allowDomains.Some?
  {
    Spread(Defaults, BuildAutoConfig(user, gameDetected, debugEnv))
  }

  /** `x || d` on an optional number: absent and 0 both give `d`. */
  function OrDefault(x: Option<int>, d: int): (r: int)
    ensures x.None? || x.value == 0 ==> r == d
    ensures x.Some? && x.value != 0 ==> r == x.value
    ensures r == 0 ==> d == 0
  {
    if x.None? || x.value == 0 then d else x.value
  }

  /** The keys of the effective configuration that the controller reads. */
  datatype Effective = Effective(
    cooldownSec: int,
    sessionCap: int,
    featureFlags: Option<FeatureFlags>,
    interstitial: Option<KindSection>,
    rewarded: Option<KindSection>)
  {
    function Section(kind: AdKind): Option<KindSection> {
      if kind.Interstitial? then interstitial else rewarded
    }
  }

  /** `{cooldownSec: local || 90, sessionCap: local || 20, ...local, ...remote}` */
  function Base(local: GBInit, remote: Option<RemoteDoc>): Effective {
    var r := remote.GetOr(EmptyDoc);
    Effective(
      Over(Over(Some(OrDefault(local.cooldownSec, 90)), local.cooldownSec), r.cooldownSec).value,
      Over(Over(Some(OrDefault(local.sessionCap, 20)), local.sessionCap), r.sessionCap).value,
      r.featureFlags, r.interstitial, r.rewarded)
  }

  /** `Object.assign(base, group)`: every key the group has replaces the base's. */
  function Assign(e: Effective, g: RemoteDoc): Effective {
    Effective(
      if g.cooldownSec.Some? then g.cooldownSec.value else e.cooldownSec,
      if g.sessionCap.Some? then g.sessionCap.value else e.sessionCap,
      Over(e.featureFlags, g.featureFlags),
      Over(e.interstitial, g.interstitial),
      Over(e.rewarded, g.rewarded))
  }

  /** `base.ab?.groups` (None when absent or not an object). */
  function Groups(remote: Option<RemoteDoc>): Option<map<string, RemoteDoc>> {
    if remote.Some? && remote.value.ab.Some? then remote.value.ab.value.groups else None
  }

  /** The random group choice is an input: any key of the groups, and anything
      at all when there are none. */
  predicate DrawOk(remote: Option<RemoteDoc>, draw: string) {
    Groups(remote).None? || |Groups(remote).value| == 0 || draw in Groups(remote).value
  }

  /** `selectABGroup`: 'default' without groups, otherwise the drawn key. */
  function SelectABGroup(groups: map<string, RemoteDoc>, draw: string): (name: string)
    requires |groups| == 0 || draw in groups
    ensures |groups| == 0 ==> name == "default"
    ensures |groups| > 0 ==> name in groups
  {
    if |groups| == 0 then "default" else draw
  }

  /** `getEffectiveConfig()` */
  function EffectiveConfig(local: GBInit, remote: Option<RemoteDoc>, draw: string): Effective
    requires DrawOk(remote, draw)
  {
    var base := Base(local, remote);
    match Groups(remote)
    case None => base
    case Some(groups) =>
      var name := SelectABGroup(groups, draw);
      if name in groups then Assign(base, groups[name]) else base
  }

  /** The cooldown and cap in force: 0 means the default, as `||` does. */
  function CooldownSec(e: Effective): int {
    OrDefault(Some(e.cooldownSec), 90)
  }

  function SessionCap(e: Effective): int {
    OrDefault(Some(e.sessionCap), 20)
  }

  predicate CoolingDown(e: Effective, s: SessionData, now: int) {
    now - s.lastShown < CooldownSec(e) * 1000
  }

  predicate AtCap(e: Effective, s: SessionData) {
    s.count >= SessionCap(e)
  }

  predicate Killed(e: Effective, kind: AdKind) {
    e.featureFlags.Some? && (if kind.Interstitial? then e.featureFlags.value.killInterstitial else e.featureFlags.value.killRewarded)
  }

  /** `canShow(kind)` once initialized: the cooldown, then the cap, then the kill switch. */
  function CanShow(e: Effective, s: SessionData, kind: AdKind, now: int): (ok: bool)
    ensures ok <==> !CoolingDown(e, s, now) && !AtCap(e, s) && !Killed(e, kind)
  {
    if CoolingDown(e, s, now) then false
    else if AtCap(e, s) then false
    else if e.featureFlags.Some? then
      if kind.Interstitial? && e.featureFlags.value.killInterstitial then false
      else if kind.Rewarded? && e.featureFlags.value.killRewarded then false
      else true
    else true
  }

  /** The reason `showAd` gives once `canShow` said no. */
  function DenyReason(e: Effective, s: SessionData, now: int): (r: Reason)
    ensures r == Cooldown || r == Capped || r == Blocked
  {
    if CoolingDown(e, s, now) then Cooldown
    else if AtCap(e, s) then Capped
    else Blocked
  }

  /** A shown ad: `ok`, or `skipped` for an interstitial. */
  predicate Succeeded(kind: AdKind, o: Outcome) {
    o == Ok || (o == Skipped && kind == Interstitial)
  }

  /** `getAdSources(kind)`: the section's `sources` whenever present (an empty
      array included). */
  function AdSources(e: Effective, kind: AdKind): (r: Option<seq<AdSourceConfig>>)
    ensures r.Some? <==> e.Section(kind).Some? && e.Section(kind).value.sources.Some?
    ensures r.Some? ==> r == e.Section(kind).value.sources
  {
    match e.Section(kind)
    case Some(section) => section.sources
    case None => None
  }

  /** `getAdTags(kind)`: the effective section's `tags` when present (an empty
      array included), else the local list for that kind, else none. */
  function AdTags(e: Effective, local: GBInit, kind: AdKind): seq<string> {
    if e.Section(kind).Some? && e.Section(kind).value.tags.Some? then e.Section(kind).value.tags.value
    else if kind.Interstitial? && local.interstitialTags.Some? then local.interstitialTags.value
    else if kind.Rewarded? && local.rewardedTags.Some? then local.rewardedTags.value
    else []
  }

  // ----- session counters in session storage -----

  /** The session-storage key: `${storageKey}:session` (an unset key prints as "undefined"). */
  function SessionKey(c: GBInit): string {
    c.storageKey.GetOr("undefined") + ":session"
  }

  function EncodeSession(s: SessionData): Json {
    JObj(map["lastShown" := JNum(s.lastShown), "count" := JNum(s.count)])
  }

  /** `JSON.stringify(sessionData)`'s value. */
  function EncodeSessions(s: Sessions): Json {
    JObj(map["interstitial" := EncodeSession(s.interstitial), "rewarded" := EncodeSession(s.rewarded)])
  }

  function DecodeSession(j: Json): SessionData {
    SessionData(Number(Field(j, "lastShown")).GetOr(0), Number(Field(j, "count")).GetOr(0))
  }

  /** `loadSessionData`: a stored value that is missing, unparsable or falsy
      keeps the counters held; otherwise each kind is read from it, a falsy
      entry being a fresh counter. */
  function LoadSessions(store: map<string, string>, key: string, codec: Codec, current: Sessions): Sessions {
    var stored := if key in store && store[key] != "" then codec.parse(store[key]) else None;
    if stored.None? || !Truthy(stored.value) then current
    else
      var v := stored.value;
      Sessions(
        if TruthyField(v, "interstitial") then DecodeSession(Field(v, "interstitial").value) else FreshSession,
        if TruthyField(v, "rewarded") then DecodeSession(Field(v, "rewarded").value) else FreshSession)
  }

  /** `updateSessionData(kind)` at time `at`: the counters and the storage after it. */
  function Record(s: Sessions, kind: AdKind, at: int): (r: Sessions)
    ensures r.Get(kind) == SessionData(at, s.Get(kind).count + 1)
    ensures r.Get(kind.Other()) == s.Get(kind.Other())
  {
    s.With(kind, SessionData(at, s.Get(kind).count + 1))
  }

  // ----- the legacy tag loop -----

  /** How the loop over legacy tags ends. */
  datatype LegacyEnd = Shown | RewardSkipped | Exhausted | Threw

  /** One `playAdTag`: without the legacy adapter it is 'error' without a call. */
  function PlayTag(hasAdapter: bool, done: seq<string>, tag: string, play: (nat, string) -> Settled): (Settled, seq<string>) {
    if hasAdapter then (play(|done|, tag), done + [tag]) else (Resolved(Error), done)
  }

  /** The `for (const tag of tags)` loop of `showAd`: `done` is every tag the
      adapter has been asked to play; `play` answers call `i` of it. */
  function LegacyRun(kind: AdKind, tags: seq<string>, hasAdapter: bool, done: seq<string>, play: (nat, string) -> Settled): (r: (LegacyEnd, seq<string>))
    ensures |done| <= |r.1| <= |done| + |tags| && r.1[..|done|] == done
    ensures hasAdapter ==> r.1 == done + tags[..|r.1| - |done|]
    ensures !hasAdapter ==> r.1 == done
    ensures r.0 == Exhausted && hasAdapter ==> r.1 == done + tags
    ensures tags == [] ==> r == (Exhausted, done)
    decreases |tags|
  {
    if tags == [] then (Exhausted, done)
    else
      var (s, done') := PlayTag(hasAdapter, done, tags[0], play);
      match s
      case Rejected => (Threw, done')
      case Resolved(o) =>
        if Succeeded(kind, o) then (Shown, done')
        else if o == Skipped && kind == Rewarded then (RewardSkipped, done')
        else
          var r := LegacyRun(kind, tags[1..], hasAdapter, done', play);
          if hasAdapter then
            assert done' + tags[1..] == done + tags by { assert tags == [tags[0]] + tags[1..]; }
            r
          else r
  }

  // ----- properties -----

  /** Without caller settings `init` stores refreshSec 900, cooldown 90, cap 20,
      storage key 'gbsdk', no allow-list, and the generated URL exactly when a
      game was detected; debug follows the environment. */
  lemma DefaultsWhenUnset(gameDetected: bool, debugEnv: bool)
    ensures var c := WithDefaults(NoConfig, gameDetected, debugEnv);
      c.refreshSec == Some(900) && c.cooldownSec == Some(90) && c.sessionCap == Some(20)
      && c.storageKey == Some("gbsdk") && c.allowDomains == Some([]) && c.debug == Some(debugEnv)
      && (c.configUrl == Some(AutoConfigUrl) <==> gameDetected) && (c.configUrl.None? <==> !gameDetected)
  {
  }

  /** Every setting the caller gives is the one `init` stores, 0 included. */
  lemma CallerSettingsWin(user: GBInit, gameDetected: bool, debugEnv: bool)
    ensures var c := WithDefaults(user, gameDetected, debugEnv);
      && (user.refreshSec.Some? ==> c.refreshSec == user.refreshSec)
      && (user.cooldownSec.Some? ==> c.cooldownSec == user.cooldownSec)
      && (user.sessionCap.Some? ==> c.sessionCap == user.sessionCap)
      && (user.storageKey.Some? ==> c.storageKey == user.storageKey)
      && (user.allowDomains.Some? ==> c.allowDomains == user.allowDomains)
      && (user.debug.Some? ==> c.debug == user.debug)
      && (user.configUrl.Some? ==> c.configUrl == user.configUrl)
      && c.configAuth == user.configAuth && c.publicKey == user.publicKey
      && c.interstitialTags == user.interstitialTags && c.rewardedTags == user.rewardedTags
  {
    var a := BuildAutoConfig(user, gameDetected, debugEnv);
    assert a == user.(configUrl := a.configUrl, debug := a.debug);
  }

  /** The generated configuration URL passes the HTTPS check, with no
      allow-list and with one naming the vendor's domain. */
  lemma AutoConfigUrlIsAccepted()
    ensures CheckConfigUrl(AutoConfigUrl, []).None?
    ensures CheckConfigUrl(AutoConfigUrl, ["game-buster.com"]).None?
  {
    assert AutoConfigUrl.hostname == "cdn" + "." + "game-buster.com";
    SubdomainAccepted("cdn", "game-buster.com");
  }

  /** The effective settings are a shallow override in increasing precedence:
      the default, the local value, the remote document's, the drawn group's. */
  lemma EffectivePrecedence(local: GBInit, remote: Option<RemoteDoc>, draw: string)
    requires DrawOk(remote, draw)
    ensures var e := EffectiveConfig(local, remote, draw);
      var r := remote.GetOr(EmptyDoc);
      var g := if Groups(remote).Some? && draw in Groups(remote).value then Groups(remote).value[draw] else EmptyDoc;
      && e.cooldownSec == (if g.cooldownSec.Some? then g.cooldownSec.value
                           else if r.cooldownSec.Some? then r.cooldownSec.value
                           else local.cooldownSec.GetOr(90))
      && e.sessionCap == (if g.sessionCap.Some? then g.sessionCap.value
                          else if r.sessionCap.Some? then r.sessionCap.value
                          else local.sessionCap.GetOr(20))
      && e.featureFlags == Over(r.featureFlags, g.featureFlags)
      && e.interstitial == Over(r.interstitial, g.interstitial)
      && e.rewarded == Over(r.rewarded, g.rewarded)
  {
    var base := Base(local, remote);
    match Groups(remote)
    case None =>
    case Some(groups) =>
      if |groups| == 0 {
        assert "default" !in groups;
      }
  }

  /** With no A/B groups, or an empty set of them, the merge of defaults,
      local settings and the remote document is the whole story. */
  lemma NoGroupsNoOverride(local: GBInit, remote: Option<RemoteDoc>, draw: string)
    requires Groups(remote).None? || Groups(remote).value == map[]
    ensures EffectiveConfig(local, remote, draw) == Base(local, remote)
  {
  }

  /** A cooldown or cap of 0 means 90 seconds or 20 shows, wherever it came from. */
  lemma ZeroMeansDefault(e: Effective, s: SessionData, kind: AdKind, now: int)
    ensures e.cooldownSec == 0 ==> CanShow(e, s, kind, now) == CanShow(e.(cooldownSec := 90), s, kind, now)
    ensures e.sessionCap == 0 ==> CanShow(e, s, kind, now) == CanShow(e.(sessionCap := 20), s, kind, now)
  {
  }

  /** The cooldown window is half-open: exactly `cooldown * 1000` ms after the
      last show an ad may play again, one millisecond earlier it may not. */
  lemma CooldownBoundary(e: Effective, s: SessionData, kind: AdKind)
    requires !AtCap(e, s) && !Killed(e, kind)
    ensures CanShow(e, s, kind, s.lastShown + CooldownSec(e) * 1000)
    ensures !CanShow(e, s, kind, s.lastShown + CooldownSec(e) * 1000 - 1)
    ensures DenyReason(e, s, s.lastShown + CooldownSec(e) * 1000 - 1) == Cooldown
  {
  }

  /** Judged on the same configuration and clock, the deny reason names the
      first check that failed: the cooldown, else the cap, else the kill switch. */
  lemma DenyReasonExplains(e: Effective, s: SessionData, kind: AdKind, now: int)
    requires !CanShow(e, s, kind, now)
    ensures DenyReason(e, s, now) == Cooldown <==> CoolingDown(e, s, now)
    ensures DenyReason(e, s, now) == Capped <==> !CoolingDown(e, s, now) && AtCap(e, s)
    ensures DenyReason(e, s, now) == Blocked <==> !CoolingDown(e, s, now) && !AtCap(e, s) && Killed(e, kind)
  {
  }

  /** The effective section's `tags`, whenever present, are the tags used:
      an empty list included, which hides the local fallback tags. */
  lemma RemoteTagsShadowLocal(e: Effective, local: GBInit, kind: AdKind)
    requires e.Section(kind).Some? && e.Section(kind).value.tags.Some?
    ensures AdTags(e, local, kind) == e.Section(kind).value.tags.value
    ensures e.Section(kind).value.tags == Some([]) ==> AdTags(e, local, kind) == []
  {
  }

  /** Without a section for the kind, or with one that has no `tags` (only
      `sources`, say), the local list for that kind is used, or none. */
  lemma LocalTagsAsFallback(e: Effective, local: GBInit, kind: AdKind)
    requires e.Section(kind).None? || e.Section(kind).value.tags.None?
    ensures kind == Interstitial ==> AdTags(e, local, kind) == local.interstitialTags.GetOr([])
    ensures kind == Rewarded ==> AdTags(e, local, kind) == local.rewardedTags.GetOr([])
  {
  }

  /** What `updateSessionData` stores, `loadSessionData` reads back. */
  lemma SessionsRoundTrip(store: map<string, string>, key: string, codec: Codec, s: Sessions, current: Sessions)
    requires Faithful(codec)
    ensures LoadSessions(store[key := codec.stringify(EncodeSessions(s))], key, codec, current) == s
  {
    var j := EncodeSessions(s);
    assert codec.parse(codec.stringify(j)) == Some(j);
    assert Field(j, "interstitial") == Some(EncodeSession(s.interstitial));
    assert Field(j, "rewarded") == Some(EncodeSession(s.rewarded));
  }

  /** Nothing stored (or something unreadable) leaves the counters held. */
  lemma NothingStoredKeepsCounters(store: map<string, string>, key: string, codec: Codec, current: Sessions)
    requires key !in store || store[key] == "" || codec.parse(store[key]).None?
    ensures LoadSessions(store, key, codec, current) == current
  {
  }

  /** The first tag settles the loop: a rejected play ends it as a throw, a
      play that succeeds for the kind ends it as shown, each after that one
      play and with no further tag tried. */
  lemma SettledTagEndsLoop(kind: AdKind, tags: seq<string>, done: seq<string>, play: (nat, string) -> Settled)
    requires tags != []
    ensures play(|done|, tags[0]) == Rejected ==>
      LegacyRun(kind, tags, true, done, play) == (Threw, done + [tags[0]])
    ensures play(|done|, tags[0]).Resolved? && Succeeded(kind, play(|done|, tags[0]).outcome) ==>
      LegacyRun(kind, tags, true, done, play) == (Shown, done + [tags[0]])
  {
  }

  /** The loop ends as a throw only on a rejected play, which is the last tag
      played. */
  lemma {:induction false} ThrewMeansLastRejected(kind: AdKind, tags: seq<string>, done: seq<string>, play: (nat, string) -> Settled)
    requires LegacyRun(kind, tags, true, done, play).0 == Threw
    ensures var r := LegacyRun(kind, tags, true, done, play);
      |r.1| > |done| && play(|r.1| - 1, r.1[|r.1| - 1]) == Rejected
    decreases |tags|
  {
    var done' := done + [tags[0]];
    var s := play(|done|, tags[0]);
    if s.Rejected? {
      assert LegacyRun(kind, tags, true, done, play) == (Threw, done');
      assert done'[|done'| - 1] == tags[0];
    } else {
      assert !Succeeded(kind, s.outcome) && !(s.outcome == Skipped && kind == Rewarded);
      assert LegacyRun(kind, tags, true, done, play) == LegacyRun(kind, tags[1..], true, done', play);
      ThrewMeansLastRejected(kind, tags[1..], done', play);
    }
  }

  /** A rewarded `skipped` ends the tag loop at once, with no further tag tried. */
  lemma RewardSkipStopsLoop(tags: seq<string>, done: seq<string>, play: (nat, string) -> Settled)
    requires tags != [] && play(|done|, tags[0]) == Resolved(Skipped)
    ensures LegacyRun(Rewarded, tags, true, done, play) == (RewardSkipped, done + [tags[0]])
    ensures LegacyRun(Interstitial, tags, true, done, play) == (Shown, done + [tags[0]])
  {
  }

  /** A tag that ends in error, timeout or no fill hands over to the next tag. */
  lemma FailedTagMovesOn(kind: AdKind, tags: seq<string>, done: seq<string>, play: (nat, string) -> Settled)
    requires tags != [] && play(|done|, tags[0]) in {Resolved(Error), Resolved(Timeout), Resolved(NoFill)}
    ensures LegacyRun(kind, tags, true, done, play) == LegacyRun(kind, tags[1..], true, done + [tags[0]], play)
  {
  }

  /** The loop shows an ad only on a succeeding tag, and that tag is the last
      one played. */
  lemma {:induction false} ShownMeansLastSucceeded(kind: AdKind, tags: seq<string>, done: seq<string>, play: (nat, string) -> Settled)
    requires LegacyRun(kind, tags, true, done, play).0 == Shown
    ensures var r := LegacyRun(kind, tags, true, done, play);
      |r.1| > |done| && play(|r.1| - 1, r.1[|r.1| - 1]).Resolved? && Succeeded(kind, play(|r.1| - 1, r.1[|r.1| - 1]).outcome)
    decreases |tags|
  {
    var done' := done + [tags[0]];
    var s := play(|done|, tags[0]);
    if s.Resolved? && Succeeded(kind, s.outcome) {
      assert LegacyRun(kind, tags, true, done, play) == (Shown, done');
      assert done'[|done'| - 1] == tags[0];
    } else {
      assert s.Resolved? && !(s.outcome == Skipped && kind == Rewarded);
      assert LegacyRun(kind, tags, true, done, play) == LegacyRun(kind, tags[1..], true, done', play);
      ShownMeansLastSucceeded(kind, tags[1..], done', play);
    }
  }
}
