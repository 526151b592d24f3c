/** The ad-source waterfall: an ordered list of sources tried one at a time
    until one plays an ad. Each of the three ad networks has at most one live
    adapter, built and loaded on first use and then reused until `destroy`.
    The adapters themselves (script loading, auctions, video playback) are an
    oracle `Env`: whether a fresh adapter's `load()` resolves, and how each
    `play()` call settles. */
module Waterfall {
  import opened JsValue
  import opened Types

  datatype Network = PrebidNet | GamNet | VastNet

  /** An adapter instance: its network and how many adapters of that network
      were built before it. */
  datatype Adapter = Adapter(network: Network, serial: nat)

  /** The first argument of `play()`: the source's network payload, or one VAST tag. */
  datatype Payload = PrebidPayload(prebid: PrebidConfig) | GamPayload(gam: GAMConfig) | VastTag(tag: string)

  datatype PlayCall = PlayCall(adapter: Adapter, payload: Payload, kind: AdKind)

  /** How a Promise settles: resolved with an outcome, or rejected (thrown). */
  datatype Settled = Resolved(outcome: Outcome) | Rejected

  /** The adapters' behaviour. `play` also receives the number of plays made
      before it, so the same call may settle differently each time. */
  datatype Env = Env(load: Adapter -> bool, play: (nat, PlayCall) -> Settled)

  /** The number of adapters of network `n` in `s`. */
  function CountOf(s: seq<Adapter>, n: Network): nat {
    if s == [] then 0 else CountOf(s[..|s| - 1], n) + (if s[|s| - 1].network == n then 1 else 0)
  }

  /** The manager's state as a value: the three adapter slots, how many
      adapters of each network were built, and the logs of `load()`, `play()`
      and `destroy()` calls made on adapters. */
  datatype Pool = Pool(
    prebid: Option<Adapter>, gam: Option<Adapter>, vast: Option<Adapter>,
    builtPrebid: nat, builtGam: nat, builtVast: nat,
    loads: seq<Adapter>, plays: seq<PlayCall>, destroyed: seq<Adapter>)
  {
    function Slot(n: Network): Option<Adapter> {
      match n
      case PrebidNet => prebid
      case GamNet => gam
      case VastNet => vast
    }

    function Built(n: Network): nat {
      match n
      case PrebidNet => builtPrebid
      case GamNet => builtGam
      case VastNet => builtVast
    }

    /** Every adapter built was loaded exactly once, and is either the live one
        in its slot (the newest of its network) or has been destroyed. */
    ghost predicate Valid() {
      NetValid(PrebidNet) && NetValid(GamNet) && NetValid(VastNet)
    }

    ghost predicate NetValid(n: Network) {
      && CountOf(loads, n) == Built(n)
      && Built(n) == CountOf(destroyed, n) + (if Slot(n).Some? then 1 else 0)
      && (Slot(n).Some? ==> Slot(n).value == Adapter(n, Built(n) - 1))
    }
  }

  const EmptyPool := Pool(None, None, None, 0, 0, 0, [], [], [])

  lemma EmptyPoolValid()
    ensures EmptyPool.Valid()
  {
  }

  /** `if (!this.xAdapter) { this.xAdapter = new X(); await this.xAdapter.load(); }`:
      the live adapter and whether the code may go on to play (false when a
      fresh adapter's `load()` rejected). The slot is filled before loading,
      so a failed load leaves the adapter in place. */
  function Acquire(p: Pool, n: Network, env: Env): (r: (Pool, Adapter, bool))
    ensures r.0.Slot(n) == Some(r.1)
    ensures p.Slot(n).Some? ==> r == (p, p.Slot(n).value, true)
    ensures p.Slot(n).None? ==>
      r.1 == Adapter(n, p.Built(n)) && r.0.Built(n) == p.Built(n) + 1 && r.0.loads == p.loads + [r.1]
      && r.2 == env.load(r.1)
    ensures forall m :: m != n ==> r.0.Slot(m) == p.Slot(m) && r.0.Built(m) == p.Built(m)
    ensures r.0.plays == p.plays && r.0.destroyed == p.destroyed
  {
    match p.Slot(n)
    case Some(a) => (p, a, true)
    case None =>
      var a := Adapter(n, p.Built(n));
      var q := match n
        case PrebidNet => p.(prebid := Some(a), builtPrebid := p.builtPrebid + 1)
        case GamNet => p.(gam := Some(a), builtGam := p.builtGam + 1)
        case VastNet => p.(vast := Some(a), builtVast := p.builtVast + 1);
      (q.(loads := p.loads + [a]), a, env.load(a))
  }

  /** One `play()` call, logged. */
  function PlayOnce(p: Pool, call: PlayCall, env: Env): (Settled, Pool) {
    (env.play(|p.plays|, call), p.(plays := p.plays + [call]))
  }

  /** `tryPrebid`. */
  function TryPrebidSpec(p: Pool, cfg: Option<PrebidConfig>, kind: AdKind, env: Env): (Outcome, Pool) {
    if cfg.None? then (Error, p)
    else if cfg.value.enabled == Some(false) then (NoFill, p)
    else
      var (q, a, loaded) := Acquire(p, PrebidNet, env);
      if !loaded then (Error, q)
      else
        var (s, q') := PlayOnce(q, PlayCall(a, PrebidPayload(cfg.value), kind), env);
        (if s.Rejected? then Error else s.outcome, q')
  }

  /** `tryGAM`. */
  function TryGamSpec(p: Pool, cfg: Option<GAMConfig>, kind: AdKind, env: Env): (Outcome, Pool) {
    if cfg.None? then (Error, p)
    else if cfg.value.enabled == Some(false) then (NoFill, p)
    else
      var (q, a, loaded) := Acquire(p, GamNet, env);
      if !loaded then (Error, q)
      else
        var (s, q') := PlayOnce(q, PlayCall(a, GamPayload(cfg.value), kind), env);
        (if s.Rejected? then Error else s.outcome, q')
  }

  /** The tag loop of `tryVAST`, from the given tags on: the first `ok` ends
      it with `ok`, a rejected play ends it with `error`, running out of tags
      gives `no_fill`. */
  function VastTagsSpec(p: Pool, a: Adapter, tags: seq<string>, kind: AdKind, env: Env): (r: (Outcome, Pool))
    ensures r.0 == Ok || r.0 == NoFill || r.0 == Error
    decreases |tags|
  {
    if tags == [] then (NoFill, p)
    else
      var (s, q) := PlayOnce(p, PlayCall(a, VastTag(tags[0]), kind), env);
      if s.Rejected? then (Error, q)
      else if s.outcome == Ok then (Ok, q)
      else VastTagsSpec(q, a, tags[1..], kind, env)
  }

  /** `tryVAST`. */
  function TryVastSpec(p: Pool, tags: Option<seq<string>>, kind: AdKind, env: Env): (r: (Outcome, Pool))
    ensures r.0 == Ok || r.0 == NoFill || r.0 == Error
  {
    if tags.None? || tags.value == [] then (Error, p)
    else
      var (q, a, loaded) := Acquire(p, VastNet, env);
      if !loaded then (Error, q) else VastTagsSpec(q, a, tags.value, kind, env)
  }

  /** `trySource`: a null entry throws when its type is read. */
  function TrySourceSpec(p: Pool, source: AdSourceConfig, kind: AdKind, env: Env): (Settled, Pool) {
    match source
    case Missing => (Rejected, p)
    case Source(t, prebid, gam, vastTags) =>
      match t
      case Prebid => var (o, q) := TryPrebidSpec(p, prebid, kind, env); (Resolved(o), q)
      case Gam => var (o, q) := TryGamSpec(p, gam, kind, env); (Resolved(o), q)
      case Vast => var (o, q) := TryVastSpec(p, vastTags, kind, env); (Resolved(o), q)
      case OtherType => (Resolved(Error), p)
  }

  /** `executeWaterfall`, from the given sources on: the first source that
      resolves `ok` ends it with `ok`; any other result or a throw moves on;
      running out of sources gives `no_fill`. */
  function Run(p: Pool, sources: seq<AdSourceConfig>, kind: AdKind, env: Env): (r: (Outcome, Pool))
    ensures r.0 == Ok || r.0 == NoFill
    ensures sources == [] ==> r == (NoFill, p)
    decreases |sources|
  {
    if sources == [] then (NoFill, p)
    else
      var (s, q) := TrySourceSpec(p, sources[0], kind, env);
      if s == Resolved(Ok) then (Ok, q) else Run(q, sources[1..], kind, env)
  }

  /** `destroy`: every live adapter is destroyed, prebid then GAM then VAST,
      and its slot emptied. */
  function DestroySpec(p: Pool): (r: Pool)
    ensures r.prebid.None? && r.gam.None? && r.vast.None?
  {
    Retire(Retire(Retire(p, PrebidNet), GamNet), VastNet)
  }

  /** `if (this.xAdapter) { this.xAdapter.destroy?.(); this.xAdapter = null; }` */
  function Retire(p: Pool, n: Network): (r: Pool)
    ensures r.Slot(n).None?
    ensures forall m :: m != n ==> r.Slot(m) == p.Slot(m)
  {
    match p.Slot(n)
    case None => p
    case Some(a) =>
      var q := match n
        case PrebidNet => p.(prebid := None)
        case GamNet => p.(gam := None)
        case VastNet => p.(vast := None);
      q.(destroyed := p.destroyed + [a])
  }

  class WaterfallManager {
    var prebidAdapter: Option<Adapter>
    var gamAdapter: Option<Adapter>
    var vastAdapter: Option<Adapter>
    var builtPrebid: nat
    var builtGam: nat
    var builtVast: nat
    var loads: seq<Adapter>
    var plays: seq<PlayCall>
    var destroyed: seq<Adapter>

    function State(): Pool
      reads this
    {
      Pool(prebidAdapter, gamAdapter, vastAdapter, builtPrebid, builtGam, builtVast, loads, plays, destroyed)
    }

    ghost predicate Valid()
      reads this
    {
      State().Valid()
    }

    constructor ()
      ensures State() == EmptyPool && Valid()
    {
      prebidAdapter, gamAdapter, vastAdapter := None, None, None;
      builtPrebid, builtGam, builtVast := 0, 0, 0;
      loads, plays, destroyed := [], [], [];
    }

    method AcquireAdapter(n: Network, env: Env) returns (a: Adapter, loaded: bool)
      modifies this
      ensures (State(), a, loaded) == Acquire(old(State()), n, env)
    {
      match n {
        case PrebidNet =>
          if prebidAdapter.None? {
            a := Adapter(PrebidNet, builtPrebid);
            prebidAdapter := Some(a);
            builtPrebid := builtPrebid + 1;
            loads := loads + [a];
            loaded := env.load(a);
          } else {
            a, loaded := prebidAdapter.value, true;
          }
        case GamNet =>
          if gamAdapter.None? {
            a := Adapter(GamNet, builtGam);
            gamAdapter := Some(a);
            builtGam := builtGam + 1;
            loads := loads + [a];
            loaded := env.load(a);
          } else {
            a, loaded := gamAdapter.value, true;
          }
        case VastNet =>
          if vastAdapter.None? {
            a := Adapter(VastNet, builtVast);
            vastAdapter := Some(a);
            builtVast := builtVast + 1;
            loads := loads + [a];
            loaded := env.load(a);
          } else {
            a, loaded := vastAdapter.value, true;
          }
      }
    }

    method Play(call: PlayCall, env: Env) returns (s: Settled)
      modifies this
      ensures (s, State()) == PlayOnce(old(State()), call, env)
    {
      s := env.play(|plays|, call);
      plays := plays + [call];
    }

    method TryPrebid(cfg: Option<PrebidConfig>, kind: AdKind, env: Env) returns (r: Outcome)
      modifies this
      ensures (r, State()) == TryPrebidSpec(old(State()), cfg, kind, env)
    {
      if cfg.None? {
        return Error;
      }
      if cfg.value.enabled == Some(false) {
        return NoFill;
      }
      var a, loaded := AcquireAdapter(PrebidNet, env);
      if !loaded {
        return Error;
      }
      var s := Play(PlayCall(a, PrebidPayload(cfg.value), kind), env);
      r := if s.Rejected? then Error else s.outcome;
    }

    method TryGAM(cfg: Option<GAMConfig>, kind: AdKind, env: Env) returns (r: Outcome)
      modifies this
      ensures (r, State()) == TryGamSpec(old(State()), cfg, kind, env)
    {
      if cfg.None? {
        return Error;
      }
      if cfg.value.enabled == Some(false) {
        return NoFill;
      }
      var a, loaded := AcquireAdapter(GamNet, env);
      if !loaded {
        return Error;
      }
      var s := Play(PlayCall(a, GamPayload(cfg.value), kind), env);
      r := if s.Rejected? then Error else s.outcome;
    }

    method TryVAST(tags: Option<seq<string>>, kind: AdKind, env: Env) returns (r: Outcome)
      modifies this
      ensures (r, State()) == TryVastSpec(old(State()), tags, kind, env)
    {
      if tags.None? || |tags.value| == 0 {
        return Error;
      }
      var a, loaded := AcquireAdapter(VastNet, env);
      if !loaded {
        return Error;
      }
      ghost var start := State();
      var i := 0;
      while i < |tags.value|
        invariant 0 <= i <= |tags.value|
        invariant VastTagsSpec(start, a, tags.value, kind, env) == VastTagsSpec(State(), a, tags.value[i..], kind, env)
      {
        var s := Play(PlayCall(a, VastTag(tags.value[i]), kind), env);
        if s.Rejected? {
          return Error;
        }
        if s.outcome == Ok {
          return Ok;
        }
        assert tags.value[i..][1..] == tags.value[i + 1..];
        i := i + 1;
      }
      r := NoFill;
    }

    method TrySource(source: AdSourceConfig, kind: AdKind, env: Env) returns (s: Settled)
      modifies this
      ensures (s, State()) == TrySourceSpec(old(State()), source, kind, env)
    {
      if source.Missing? {
        return Rejected;
      }
      match source.sourceType {
        case Prebid =>
          var o := TryPrebid(source.prebid, kind, env);
          s := Resolved(o);
        case Gam =>
          var o := TryGAM(source.gam, kind, env);
          s := Resolved(o);
        case Vast =>
          var o := TryVAST(source.vastTags, kind, env);
          s := Resolved(o);
        case OtherType =>
          s := Resolved(Error);
      }
    }

    /** `executeWaterfall(sources, ctx)` */
    method ExecuteWaterfall(sources: seq<AdSourceConfig>, kind: AdKind, env: Env) returns (r: Outcome)
      requires Valid()
      modifies this
      ensures Valid()
      ensures (r, State()) == Run(old(State()), sources, kind, env)
    {
      ghost var start := State();
      RunKeepsValid(start, sources, kind, env);
      if |sources| == 0 {
        return NoFill;
      }
      var i := 0;
      while i < |sources|
        invariant 0 <= i <= |sources|
        invariant Run(start, sources, kind, env) == Run(State(), sources[i..], kind, env)
      {
        var s := TrySource(sources[i], kind, env);
        if s == Resolved(Ok) {
          return Ok;
        }
        assert sources[i..][1..] == sources[i + 1..];
        i := i + 1;
      }
      r := NoFill;
    }

    /** `destroy()` */
    method Destroy()
      requires Valid()
      modifies this
      ensures Valid()
      ensures State() == DestroySpec(old(State()))
    {
      ghost var start := State();
      DestroyKeepsValid(start);
      if prebidAdapter.Some? {
        destroyed := destroyed + [prebidAdapter.value];
        prebidAdapter := None;
      }
      assert State() == Retire(start, PrebidNet);
      if gamAdapter.Some? {
        destroyed := destroyed + [gamAdapter.value];
        gamAdapter := None;
      }
      assert State() == Retire(Retire(start, PrebidNet), GamNet);
      if vastAdapter.Some? {
        destroyed := destroyed + [vastAdapter.value];
        vastAdapter := None;
      }
    }
  }

  // ----- properties -----

  lemma CountOfAppend(s: seq<Adapter>, a: Adapter, n: Network)
    ensures CountOf(s + [a], n) == CountOf(s, n) + (if a.network == n then 1 else 0)
  {
    assert (s + [a])[..|s|] == s;
  }

  lemma AcquireKeepsValid(p: Pool, n: Network, env: Env)
    requires p.Valid()
    ensures Acquire(p, n, env).0.Valid()
  {
    if p.Slot(n).None? {
      var r := Acquire(p, n, env);
      CountOfAppend(p.loads, r.1, PrebidNet);
      CountOfAppend(p.loads, r.1, GamNet);
      CountOfAppend(p.loads, r.1, VastNet);
    }
  }

  lemma TrySourceKeepsValid(p: Pool, source: AdSourceConfig, kind: AdKind, env: Env)
    requires p.Valid()
    ensures TrySourceSpec(p, source, kind, env).1.Valid()
  {
    if source.Source? {
      match source.sourceType
      case Prebid => TryPrebidKeepsValid(p, source.prebid, kind, env);
      case Gam => TryGamKeepsValid(p, source.gam, kind, env);
      case Vast => TryVastKeepsValid(p, source.vastTags, kind, env);
      case OtherType =>
    }
  }

  lemma TryPrebidKeepsValid(p: Pool, cfg: Option<PrebidConfig>, kind: AdKind, env: Env)
    requires p.Valid()
    ensures TryPrebidSpec(p, cfg, kind, env).1.Valid()
  {
    AcquireKeepsValid(p, PrebidNet, env);
  }

  lemma TryGamKeepsValid(p: Pool, cfg: Option<GAMConfig>, kind: AdKind, env: Env)
    requires p.Valid()
    ensures TryGamSpec(p, cfg, kind, env).1.Valid()
  {
    AcquireKeepsValid(p, GamNet, env);
  }

  lemma TryVastKeepsValid(p: Pool, tags: Option<seq<string>>, kind: AdKind, env: Env)
    requires p.Valid()
    ensures TryVastSpec(p, tags, kind, env).1.Valid()
  {
    if tags.Some? && tags.value != [] {
      AcquireKeepsValid(p, VastNet, env);
      var (q, a, loaded) := Acquire(p, VastNet, env);
      if loaded {
        VastTagsOnlyPlay(q, a, tags.value, kind, env);
        PlaysDoNotMatter(q, VastTagsSpec(q, a, tags.value, kind, env).1);
      }
    }
  }

  /** The bookkeeping does not depend on the log of plays. */
  lemma PlaysDoNotMatter(p: Pool, q: Pool)
    requires p.Valid() && q == p.(plays := q.plays)
    ensures q.Valid()
  {
    assert q.NetValid(PrebidNet) && q.NetValid(GamNet) && q.NetValid(VastNet);
  }

  /** The VAST tag loop only plays: adapters, counters, loads and destroys are untouched. */
  lemma {:induction false} VastTagsOnlyPlay(p: Pool, a: Adapter, tags: seq<string>, kind: AdKind, env: Env)
    ensures VastTagsSpec(p, a, tags, kind, env).1 == p.(plays := VastTagsSpec(p, a, tags, kind, env).1.plays)
    decreases |tags|
  {
    if tags != [] {
      var (s, q) := PlayOnce(p, PlayCall(a, VastTag(tags[0]), kind), env);
      if !s.Rejected? && s.outcome != Ok {
        VastTagsOnlyPlay(q, a, tags[1..], kind, env);
      }
    }
  }

  /** A waterfall run keeps the adapter bookkeeping consistent. */
  lemma {:induction false} RunKeepsValid(p: Pool, sources: seq<AdSourceConfig>, kind: AdKind, env: Env)
    requires p.Valid()
    ensures Run(p, sources, kind, env).1.Valid()
    decreases |sources|
  {
    if sources != [] {
      TrySourceKeepsValid(p, sources[0], kind, env);
      var (s, q) := TrySourceSpec(p, sources[0], kind, env);
      if s != Resolved(Ok) {
        RunKeepsValid(q, sources[1..], kind, env);
      }
    }
  }

  lemma DestroyKeepsValid(p: Pool)
    requires p.Valid()
    ensures DestroySpec(p).Valid()
  {
    RetireKeepsValid(p, PrebidNet);
    RetireKeepsValid(Retire(p, PrebidNet), GamNet);
    RetireKeepsValid(Retire(Retire(p, PrebidNet), GamNet), VastNet);
  }

  lemma RetireKeepsValid(p: Pool, n: Network)
    requires p.Valid()
    ensures Retire(p, n).Valid()
  {
    if p.Slot(n).Some? {
      var a := p.Slot(n).value;
      CountOfAppend(p.destroyed, a, PrebidNet);
      CountOfAppend(p.destroyed, a, GamNet);
      CountOfAppend(p.destroyed, a, VastNet);
    }
  }

  /** Without a `destroy`, at most one adapter of each network is ever built
      and loaded: the live one. */
  lemma AtMostOneAdapterPerNetwork(p: Pool, n: Network)
    requires p.Valid() && p.destroyed == []
    ensures p.Built(n) <= 1 && CountOf(p.loads, n) <= 1
  {
  }

  /** A network whose adapter is live keeps that very adapter through a whole
      run: nothing is rebuilt or reloaded, even after a failed load. */
  lemma {:induction false} LiveAdapterReused(p: Pool, sources: seq<AdSourceConfig>, kind: AdKind, env: Env, n: Network)
    requires p.Slot(n).Some?
    ensures Run(p, sources, kind, env).1.Slot(n) == p.Slot(n)
    ensures Run(p, sources, kind, env).1.Built(n) == p.Built(n)
    decreases |sources|
  {
    if sources != [] {
      var (s, q) := TrySourceSpec(p, sources[0], kind, env);
      TrySourceFrame(p, sources[0], kind, env);
      if s != Resolved(Ok) {
        LiveAdapterReused(q, sources[1..], kind, env, n);
      }
    }
  }

  /** `q` keeps every live slot of `p` with its build count, adds loads only
      when some slot of `p` was empty, and keeps the destroyed list. */
  ghost predicate KeepsLive(p: Pool, q: Pool) {
    && (forall n :: p.Slot(n).Some? ==> q.Slot(n) == p.Slot(n) && q.Built(n) == p.Built(n))
    && (p.Slot(PrebidNet).Some? && p.Slot(GamNet).Some? && p.Slot(VastNet).Some? ==> q.loads == p.loads)
    && q.destroyed == p.destroyed
  }

  /** Acquiring an adapter and then logging plays keeps every live slot. */
  lemma AcquireKeepsLive(p: Pool, n: Network, env: Env, q: Pool)
    requires q == Acquire(p, n, env).0.(plays := q.plays)
    ensures KeepsLive(p, q)
  {
    var r := Acquire(p, n, env).0;
    assert forall m :: q.Slot(m) == r.Slot(m) && q.Built(m) == r.Built(m);
  }

  /** One source leaves a live slot alone, only ever fills empty slots, and
      adds loads only for the slots it fills. */
  lemma TrySourceFrame(p: Pool, source: AdSourceConfig, kind: AdKind, env: Env)
    ensures forall n :: p.Slot(n).Some? ==>
      TrySourceSpec(p, source, kind, env).1.Slot(n) == p.Slot(n) && TrySourceSpec(p, source, kind, env).1.Built(n) == p.Built(n)
    ensures p.Slot(PrebidNet).Some? && p.Slot(GamNet).Some? && p.Slot(VastNet).Some? ==>
      TrySourceSpec(p, source, kind, env).1.loads == p.loads
    ensures TrySourceSpec(p, source, kind, env).1.destroyed == p.destroyed
  {
    var q := TrySourceSpec(p, source, kind, env).1;
    match source
    case Missing =>
      assert q == p;
    case Source(t, prebid, gam, vastTags) =>
      match t
      case Prebid =>
        if prebid.None? || prebid.value.enabled == Some(false) {
          assert q == p;
        } else {
          AcquireKeepsLive(p, PrebidNet, env, q);
        }
      case Gam =>
        if gam.None? || gam.value.enabled == Some(false) {
          assert q == p;
        } else {
          AcquireKeepsLive(p, GamNet, env, q);
        }
      case Vast =>
        if vastTags.None? || vastTags.value == [] {
          assert q == p;
        } else {
          var (a0, a, loaded) := Acquire(p, VastNet, env);
          if loaded {
            VastTagsOnlyPlay(a0, a, vastTags.value, kind, env);
          }
          AcquireKeepsLive(p, VastNet, env, q);
        }
      case OtherType =>
        assert q == p;
  }

  /** Sources are tried strictly in order: once a prefix of the list has
      produced `ok`, whatever follows it is never tried. */
  lemma {:induction false} OkStopsTheWaterfall(p: Pool, s: seq<AdSourceConfig>, t: seq<AdSourceConfig>, kind: AdKind, env: Env)
    requires Run(p, s, kind, env).0 == Ok
    ensures Run(p, s + t, kind, env) == Run(p, s, kind, env)
    decreases |s|
  {
    if s != [] {
      var (r, q) := TrySourceSpec(p, s[0], kind, env);
      assert (s + t)[0] == s[0] && (s + t)[1..] == s[1..] + t;
      if r != Resolved(Ok) {
        OkStopsTheWaterfall(q, s[1..], t, kind, env);
      }
    }
  }

  /** When a prefix of the list fails as a whole, the rest of the list runs
      from the state it left, as if the waterfall had started there. */
  lemma {:induction false} FailureMovesOn(p: Pool, s: seq<AdSourceConfig>, t: seq<AdSourceConfig>, kind: AdKind, env: Env)
    requires Run(p, s, kind, env).0 != Ok
    ensures Run(p, s + t, kind, env) == Run(Run(p, s, kind, env).1, t, kind, env)
    decreases |s|
  {
    if s == [] {
      assert s + t == t;
    } else {
      var (r, q) := TrySourceSpec(p, s[0], kind, env);
      assert (s + t)[0] == s[0] && (s + t)[1..] == s[1..] + t;
      FailureMovesOn(q, s[1..], t, kind, env);
    }
  }

  /** A source that fails (any result but `ok`, or a throw) is followed by
      the next source from the state it left. */
  lemma FailedSourceContinues(p: Pool, source: AdSourceConfig, rest: seq<AdSourceConfig>, kind: AdKind, env: Env)
    requires TrySourceSpec(p, source, kind, env).0 != Resolved(Ok)
    ensures Run(p, [source] + rest, kind, env) == Run(TrySourceSpec(p, source, kind, env).1, rest, kind, env)
  {
    assert ([source] + rest)[1..] == rest;
  }

  /** Per-entry results that need no adapter: a null entry throws, an unknown
      type and a missing payload give `error`, a disabled network gives
      `no_fill`, missing or empty VAST tags give `error`; none of them builds,
      loads or plays anything. */
  lemma EntryShortCircuits(p: Pool, kind: AdKind, env: Env, pc: PrebidConfig, gc: GAMConfig)
    requires pc.enabled == Some(false) && gc.enabled == Some(false)
    ensures TrySourceSpec(p, Missing, kind, env) == (Rejected, p)
    ensures forall pr, g, v :: TrySourceSpec(p, Source(OtherType, pr, g, v), kind, env) == (Resolved(Error), p)
    ensures forall g, v :: TrySourceSpec(p, Source(Prebid, None, g, v), kind, env) == (Resolved(Error), p)
    ensures forall pr, v :: TrySourceSpec(p, Source(Gam, pr, None, v), kind, env) == (Resolved(Error), p)
    ensures forall g, v :: TrySourceSpec(p, Source(Prebid, Some(pc), g, v), kind, env) == (Resolved(NoFill), p)
    ensures forall pr, v :: TrySourceSpec(p, Source(Gam, pr, Some(gc), v), kind, env) == (Resolved(NoFill), p)
    ensures forall pr, g :: TrySourceSpec(p, Source(Vast, pr, g, None), kind, env) == (Resolved(Error), p)
    ensures forall pr, g :: TrySourceSpec(p, Source(Vast, pr, g, Some([])), kind, env) == (Resolved(Error), p)
  {
  }

  /** A null entry is passed over: the waterfall goes on with the next entry. */
  lemma NullEntrySkipped(p: Pool, rest: seq<AdSourceConfig>, kind: AdKind, env: Env)
    ensures Run(p, [Missing] + rest, kind, env) == Run(p, rest, kind, env)
  {
    assert ([Missing] + rest)[1..] == rest;
  }

  /** Tags are tried in order: once a prefix of the tags has given `ok`, the
      later tags are never played. */
  lemma {:induction false} VastOkStopsTags(p: Pool, a: Adapter, s: seq<string>, t: seq<string>, kind: AdKind, env: Env)
    requires VastTagsSpec(p, a, s, kind, env).0 == Ok
    ensures VastTagsSpec(p, a, s + t, kind, env) == VastTagsSpec(p, a, s, kind, env)
    decreases |s|
  {
    if s != [] {
      var (r, q) := PlayOnce(p, PlayCall(a, VastTag(s[0]), kind), env);
      assert (s + t)[0] == s[0] && (s + t)[1..] == s[1..] + t;
      if !r.Rejected? && r.outcome != Ok {
        VastOkStopsTags(q, a, s[1..], t, kind, env);
      }
    }
  }

  /** A fresh adapter whose `load()` rejects ends the attempt in the `catch`:
      `error`, and nothing is played. */
  lemma FailedLoadIsError(p: Pool, prebid: Option<PrebidConfig>, gam: Option<GAMConfig>, tags: Option<seq<string>>, kind: AdKind, env: Env)
    ensures p.prebid.None? && prebid.Some? && prebid.value.enabled != Some(false) && !env.load(Adapter(PrebidNet, p.builtPrebid)) ==>
      TryPrebidSpec(p, prebid, kind, env).0 == Error && TryPrebidSpec(p, prebid, kind, env).1.plays == p.plays
    ensures p.gam.None? && gam.Some? && gam.value.enabled != Some(false) && !env.load(Adapter(GamNet, p.builtGam)) ==>
      TryGamSpec(p, gam, kind, env).0 == Error && TryGamSpec(p, gam, kind, env).1.plays == p.plays
    ensures p.vast.None? && tags.Some? && tags.value != [] && !env.load(Adapter(VastNet, p.builtVast)) ==>
      TryVastSpec(p, tags, kind, env).0 == Error && TryVastSpec(p, tags, kind, env).1.plays == p.plays
  {
  }

  /** Every tag, played as call `start + i` of the log, settles without
      throwing and without `ok`. */
  ghost predicate AllMiss(env: Env, start: nat, a: Adapter, tags: seq<string>, kind: AdKind) {
    forall i :: 0 <= i < |tags| ==>
      env.play(start + i, PlayCall(a, VastTag(tags[i]), kind)).Resolved?
      && env.play(start + i, PlayCall(a, VastTag(tags[i]), kind)).outcome != Ok
  }

  /** The tag loop ends in `no_fill` exactly when every tag, played in
      order, settled without `ok` and without throwing. */
  lemma {:induction false} AllTagsFailNoFill(p: Pool, a: Adapter, tags: seq<string>, kind: AdKind, env: Env)
    ensures VastTagsSpec(p, a, tags, kind, env).0 == NoFill <==> AllMiss(env, |p.plays|, a, tags, kind)
    decreases |tags|
  {
    if tags != [] {
      var (s, q) := PlayOnce(p, PlayCall(a, VastTag(tags[0]), kind), env);
      AllTagsFailNoFill(q, a, tags[1..], kind, env);
      var start := |p.plays|;
      if AllMiss(env, start, a, tags, kind) {
        assert s.Resolved? && s.outcome != Ok by {
          assert 0 < |tags|;
        }
        forall i | 0 <= i < |tags[1..]|
          ensures env.play(start + 1 + i, PlayCall(a, VastTag(tags[1..][i]), kind)).Resolved?
            && env.play(start + 1 + i, PlayCall(a, VastTag(tags[1..][i]), kind)).outcome != Ok
        {
          assert tags[1..][i] == tags[i + 1];
        }
        assert AllMiss(env, |q.plays|, a, tags[1..], kind);
      }
      if s.Resolved? && s.outcome != Ok && AllMiss(env, |q.plays|, a, tags[1..], kind) {
        forall i | 0 <= i < |tags|
          ensures env.play(start + i, PlayCall(a, VastTag(tags[i]), kind)).Resolved?
            && env.play(start + i, PlayCall(a, VastTag(tags[i]), kind)).outcome != Ok
        {
          if i > 0 {
            assert tags[1..][i - 1] == tags[i];
          }
        }
      }
    }
  }

  /** `tryVAST` gives `no_fill` exactly when the entry has tags, its adapter
      loads, and every tag misses; an entry without tags is `error`. */
  lemma VastNoFillIffAllMiss(p: Pool, tags: Option<seq<string>>, kind: AdKind, env: Env)
    ensures tags.None? || tags.value == [] ==> TryVastSpec(p, tags, kind, env) == (Error, p)
    ensures TryVastSpec(p, tags, kind, env).0 == NoFill <==>
      tags.Some? && tags.value != [] &&
      var (q, a, loaded) := Acquire(p, VastNet, env);
      loaded && AllMiss(env, |p.plays|, a, tags.value, kind)
  {
    if tags.Some? && tags.value != [] {
      var (q, a, loaded) := Acquire(p, VastNet, env);
      AllTagsFailNoFill(q, a, tags.value, kind, env);
    }
  }

  /** A rejected VAST play abandons the remaining tags of the entry. */
  lemma {:induction false} VastErrorStopsTags(p: Pool, a: Adapter, s: seq<string>, t: seq<string>, kind: AdKind, env: Env)
    requires VastTagsSpec(p, a, s, kind, env).0 == Error
    ensures VastTagsSpec(p, a, s + t, kind, env) == VastTagsSpec(p, a, s, kind, env)
    decreases |s|
  {
    if s != [] {
      var (r, q) := PlayOnce(p, PlayCall(a, VastTag(s[0]), kind), env);
      assert (s + t)[0] == s[0] && (s + t)[1..] == s[1..] + t;
      if !r.Rejected? && r.outcome != Ok {
        VastErrorStopsTags(q, a, s[1..], t, kind, env);
      }
    }
  }

  /** The play log only grows: a run appends its plays after the earlier ones. */
  lemma {:induction false} PlaysOnlyGrow(p: Pool, sources: seq<AdSourceConfig>, kind: AdKind, env: Env)
    ensures p.plays <= Run(p, sources, kind, env).1.plays
    decreases |sources|
  {
    if sources != [] {
      var (s, q) := TrySourceSpec(p, sources[0], kind, env);
      TrySourcePlaysGrow(p, sources[0], kind, env);
      if s != Resolved(Ok) {
        PlaysOnlyGrow(q, sources[1..], kind, env);
      }
    }
  }

  lemma TrySourcePlaysGrow(p: Pool, source: AdSourceConfig, kind: AdKind, env: Env)
    ensures p.plays <= TrySourceSpec(p, source, kind, env).1.plays
  {
    if source.Source? && source.sourceType == Vast && source.vastTags.Some? && source.vastTags.value != [] {
      var q := Acquire(p, VastNet, env);
      VastTagsPlaysGrow(q.0, q.1, source.vastTags.value, kind, env);
    }
  }

  lemma {:induction false} VastTagsPlaysGrow(p: Pool, a: Adapter, tags: seq<string>, kind: AdKind, env: Env)
    ensures p.plays <= VastTagsSpec(p, a, tags, kind, env).1.plays
    decreases |tags|
  {
    if tags != [] {
      var (s, q) := PlayOnce(p, PlayCall(a, VastTag(tags[0]), kind), env);
      if !s.Rejected? && s.outcome != Ok {
        VastTagsPlaysGrow(q, a, tags[1..], kind, env);
      }
    }
  }

  /** `destroy` is idempotent, and does nothing when no adapter is live. */
  lemma DestroyIdempotent(p: Pool)
    ensures DestroySpec(DestroySpec(p)) == DestroySpec(p)
    ensures p.prebid.None? && p.gam.None? && p.vast.None? ==> DestroySpec(p) == p
  {
  }

  /** After `destroy`, the next source of a network builds and loads a new
      adapter of that network. */
  lemma RebuildAfterDestroy(p: Pool, n: Network, env: Env)
    requires p.Valid()
    ensures Acquire(DestroySpec(p), n, env).1 == Adapter(n, p.Built(n))
  {
  }

  // ----- debug logging reads every entry's type outside the try -----

  /** `executeWaterfall` as written: with `ctx.debug` set, the logging at the
      start maps every entry to its `type`, outside the `try`, so a null entry
      makes the whole call reject before any source is tried. */
  function RunAsWritten(p: Pool, sources: seq<AdSourceConfig>, kind: AdKind, env: Env, debug: bool): (Settled, Pool) {
    if |sources| > 0 && debug && Missing in sources then (Rejected, p)
    else var (o, q) := Run(p, sources, kind, env); (Resolved(o), q)
  }

  /** The same list with a null entry and a VAST entry that fills: `ok`
      without debug logging, a rejection with it. */
  lemma DebugLoggingChangesOutcome(kind: AdKind)
    ensures var env := Env((a: Adapter) => true, (i: nat, c: PlayCall) => Resolved(Ok));
      var sources := [Missing, Source(Vast, None, None, Some(["https://ads.example/vast.xml"]))];
      RunAsWritten(EmptyPool, sources, kind, env, false).0 == Resolved(Ok)
      && RunAsWritten(EmptyPool, sources, kind, env, true).0 == Rejected
  {
    var env := Env((a: Adapter) => true, (i: nat, c: PlayCall) => Resolved(Ok));
    var v := Source(Vast, None, None, Some(["https://ads.example/vast.xml"]));
    var sources := [Missing, v];
    NullEntrySkipped(EmptyPool, [v], kind, env);
    assert Run(EmptyPool, [v], kind, env).0 == Ok;
  }
}
