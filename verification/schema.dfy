/** The remote policy document: the schema check a downloaded document must
    pass, and the typed view the SDK takes of a parsed document. The SDK casts
    the parsed JSON to its declared type without converting it; the view below
    reads each field the way the SDK's code reads it, and treats a field of
    the wrong JSON type as absent. */
module Schema {
  import opened JsValue
  import opened Types

  const MsgNotObject := "Invalid config: must be an object"
  const MsgVersion := "Invalid config: version is required and must be a string"
  const MsgCooldown := "Invalid config: cooldownSec must be a non-negative number"
  const MsgSessionCap := "Invalid config: sessionCap must be a non-negative number"
  const MsgInterstitialTags := "Invalid config: interstitial.tags must be an array"
  const MsgRewardedTags := "Invalid config: rewarded.tags must be an array"

  /** `x.version` is a non-empty string */
  predicate HasVersion(j: Json) {
    Field(j, "version").Some? && Field(j, "version").value.JStr? && Field(j, "version").value.s != ""
  }

  /** An optional count: absent, or a number that is not negative. */
  predicate CountOk(j: Json, k: string) {
    Field(j, k).None? || (Field(j, k).value.JNum? && Field(j, k).value.n >= 0)
  }

  /** A per-kind section that is falsy or absent, or whose `tags` is an array. */
  predicate SectionOk(j: Json, k: string) {
    !TruthyField(j, k) || (Field(Field(j, k).value, "tags").Some? && Field(Field(j, k).value, "tags").value.JArr?)
  }

  /** `validateConfig`: None when it returns, the message it throws otherwise.
      `typeof` an array is 'object', so an array passes the first test and
      fails on its missing version. */
  function ValidateConfig(j: Json): (r: Option<string>)
    ensures r.None? <==> j.JObj? && HasVersion(j) && CountOk(j, "cooldownSec") && CountOk(j, "sessionCap")
                         && SectionOk(j, "interstitial") && SectionOk(j, "rewarded")
    ensures r == Some(MsgNotObject) <==> !(j.JObj? || j.JArr?)
  {
    if !(j.JObj? || j.JArr?) then Some(MsgNotObject)
    else if !HasVersion(j) then Some(MsgVersion)
    else if !CountOk(j, "cooldownSec") then Some(MsgCooldown)
    else if !CountOk(j, "sessionCap") then Some(MsgSessionCap)
    else if !SectionOk(j, "interstitial") then Some(MsgInterstitialTags)
    else if !SectionOk(j, "rewarded") then Some(MsgRewardedTags)
    else None
  }

  /** The strings of a JSON array, in order. */
  function Strings(items: seq<Json>): (r: seq<string>)
    ensures |r| <= |items|
  {
    if items == [] then []
    else (if items[0].JStr? then [items[0].s] else []) + Strings(items[1..])
  }

  function StringList(j: Option<Json>): Option<seq<string>> {
    if j.Some? && j.value.JArr? then Some(Strings(j.value.items)) else None
  }

  function Number(j: Option<Json>): Option<int> {
    if j.Some? && j.value.JNum? then Some(j.value.n) else None
  }

  /** `enabled`: only a literal `false` switches a network off. */
  function Enabled(j: Json): Option<bool> {
    match Field(j, "enabled")
    case Some(JBool(b)) => Some(b)
    case _ => None
  }

  function Bidders(items: seq<Json>): seq<PrebidBidder> {
    if items == [] then []
    else
      var b := items[0];
      var rest := Bidders(items[1..]);
      match Field(b, "name")
      case Some(JStr(name)) =>
        var params := match Field(b, "params") case Some(JObj(f)) => f case _ => map[];
        [PrebidBidder(name, params)] + rest
      case _ => rest
  }

  function DecodePrebid(j: Json): PrebidConfig {
    var bidders := match Field(j, "bidders") case Some(JArr(items)) => Bidders(items) case _ => [];
    PrebidConfig(Enabled(j), bidders, Number(Field(j, "timeout")))
  }

  function Text(j: Option<Json>): string {
    if j.Some? && j.value.JStr? then j.value.s else ""
  }

  function DecodeGam(j: Json): GAMConfig {
    GAMConfig(Enabled(j), Text(Field(j, "networkCode")), Text(Field(j, "adUnitPath")), Number(Field(j, "timeout")))
  }

  /** One waterfall entry: `null` is a missing entry; any other value is an
      entry whose `type` is one of the three known strings or something else,
      and whose payloads count only when truthy. */
  function DecodeSource(j: Json): (r: AdSourceConfig)
    ensures r.Missing? <==> j.JNull?
  {
    if j.JNull? then Missing
    else
      var t := match Field(j, "type")
        case Some(JStr(s)) => if s == "prebid" then Prebid else if s == "gam" then Gam else if s == "vast" then Vast else OtherType
        case _ => OtherType;
      var prebid := if TruthyField(j, "prebid") then Some(DecodePrebid(Field(j, "prebid").value)) else None;
      var gam := if TruthyField(j, "gam") then Some(DecodeGam(Field(j, "gam").value)) else None;
      Source(t, prebid, gam, StringList(Field(j, "vastTags")))
  }

  function DecodeSources(items: seq<Json>): (r: seq<AdSourceConfig>)
    ensures |r| == |items|
    ensures forall i :: 0 <= i < |items| ==> r[i] == DecodeSource(items[i])
  {
    if items == [] then [] else [DecodeSource(items[0])] + DecodeSources(items[1..])
  }

  function DecodeSection(j: Json): KindSection {
    var sources := match Field(j, "sources") case Some(JArr(items)) => Some(DecodeSources(items)) case _ => None;
    KindSection(StringList(Field(j, "tags")), sources, StringList(Field(j, "blockedCountries")))
  }

  function Section(j: Json, k: string): Option<KindSection> {
    match Field(j, k)
    case Some(JObj(f)) => Some(DecodeSection(JObj(f)))
    case _ => None
  }

  /** A remote document, or an A/B group's partial document (a group that is
      not an object overrides nothing). */
  function DecodeDoc(j: Json): RemoteDoc
    decreases j
  {
    var flags := match Field(j, "featureFlags")
      case Some(JObj(f)) =>
        var ff := JObj(f);
        Some(FeatureFlags(TruthyField(ff, "killInterstitial"), TruthyField(ff, "killRewarded")))
      case _ => None;
    var ab :=
      if j.JObj? && "ab" in j.fields && j.fields["ab"].JObj? then
        var abj := j.fields["ab"];
        var bucketing := match Field(abj, "bucketing") case Some(JStr(s)) => Some(s) case _ => None;
        var groups :=
          if "groups" in abj.fields && abj.fields["groups"].JObj? then
            var g := abj.fields["groups"].fields;
            Some(map k | k in g :: DecodeDoc(g[k]))
          else None;
        Some(AbConfig(bucketing, groups))
      else None;
    var version := match Field(j, "version") case Some(JStr(s)) => Some(s) case _ => None;
    RemoteDoc(version, Number(Field(j, "cooldownSec")), Number(Field(j, "sessionCap")),
      Section(j, "interstitial"), Section(j, "rewarded"), flags, ab)
  }

  /** What the SDK may rely on in a document that passed `validateConfig`. */
  predicate WellFormed(d: RemoteDoc) {
    && d.version.Some? && d.version.value != ""
    && (d.cooldownSec.None? || d.cooldownSec.value >= 0)
    && (d.sessionCap.None? || d.sessionCap.value >= 0)
    && (d.interstitial.None? || d.interstitial.value.tags.Some?)
    && (d.rewarded.None? || d.rewarded.value.tags.Some?)
  }

  /** A document the schema accepts reads as a well-formed policy: a version,
      counts that are absent or non-negative, and a tag list in every section
      that is there. */
  lemma AcceptedIsWellFormed(j: Json)
    requires ValidateConfig(j).None?
    ensures WellFormed(DecodeDoc(j))
  {
    var d := DecodeDoc(j);
    if d.interstitial.Some? {
      assert TruthyField(j, "interstitial");
    }
    if d.rewarded.Some? {
      assert TruthyField(j, "rewarded");
    }
  }

  /** Examples of documents the schema turns away, each with its message. */
  lemma RejectedDocuments()
    ensures ValidateConfig(JNull) == Some(MsgNotObject)
    ensures ValidateConfig(JStr("{}")) == Some(MsgNotObject)
    ensures ValidateConfig(JArr([])) == Some(MsgVersion)
    ensures ValidateConfig(JObj(map["version" := JStr("")])) == Some(MsgVersion)
    ensures ValidateConfig(JObj(map["version" := JNum(1)])) == Some(MsgVersion)
    ensures ValidateConfig(JObj(map["version" := JStr("1"), "cooldownSec" := JNum(-1)])) == Some(MsgCooldown)
    ensures ValidateConfig(JObj(map["version" := JStr("1"), "sessionCap" := JNull])) == Some(MsgSessionCap)
    ensures ValidateConfig(JObj(map["version" := JStr("1"), "interstitial" := JObj(map["sources" := JArr([])])])) == Some(MsgInterstitialTags)
    ensures ValidateConfig(JObj(map["version" := JStr("1"), "rewarded" := JNum(5)])) == Some(MsgRewardedTags)
  {
    var i := JObj(map["version" := JStr("1"), "interstitial" := JObj(map["sources" := JArr([])])]);
    assert HasVersion(i) && CountOk(i, "cooldownSec") && CountOk(i, "sessionCap");
    var r := JObj(map["version" := JStr("1"), "rewarded" := JNum(5)]);
    assert HasVersion(r) && CountOk(r, "cooldownSec") && CountOk(r, "sessionCap") && SectionOk(r, "interstitial");
    var c := JObj(map["version" := JStr("1"), "cooldownSec" := JNum(-1)]);
    assert HasVersion(c);
    var s := JObj(map["version" := JStr("1"), "sessionCap" := JNull]);
    assert HasVersion(s) && CountOk(s, "cooldownSec");
  }

  /** The smallest document the schema accepts: a version and nothing else. */
  lemma VersionAloneSuffices(v: string)
    requires v != ""
    ensures ValidateConfig(JObj(map["version" := JStr(v)])).None?
  {
    var j := JObj(map["version" := JStr(v)]);
    assert HasVersion(j);
  }
}
