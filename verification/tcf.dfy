/** Consent data read from an IAB Europe TCF v2 consent-management platform
    (the `getTCData` command of the `__tcfapi` function), reduced to the three
    fields the SDK passes on to ad requests, and the consent decision made from
    them. The Promise wrapper and its one-second timer are reduced to the way
    the call ends. */
module Tcf {
  import opened JsValue

  /** How the `__tcfapi('getTCData', 2, callback)` call ends. `Silent` covers a
      callback that never comes, or comes after the timer has already settled
      the result; `Answers` a callback that comes in time, with its `tcData`
      (None: `undefined`) and `success` arguments. */
  datatype TcfApi =
    | NoApi
    | Throws
    | Silent
    | Answers(tcData: Option<Json>, success: bool)

  /** `TCFData`: `gdpr` and `tcString` are absent in the default result. */
  datatype TcfData = TcfData(gdpr: Option<int>, tcString: Option<Json>, npa: int)

  const DefaultTcf := TcfData(None, None, 0)

  /** `tcData.purpose.consents['1'] === true`, for a truthy `consents`: an
      object's key "1", or an array's element at index 1. */
  predicate Purpose1Granted(consents: Json) {
    match consents
    case JObj(fields) => "1" in fields && fields["1"] == JBool(true)
    case JArr(items) => |items| > 1 && items[1] == JBool(true)
    case _ => false
  }

  /** The purpose-1 check: GDPR applies, a `purpose.consents` record is there,
      and it does not grant purpose 1. */
  predicate DeniesPurpose1(tcData: Json) {
    TruthyField(tcData, "gdprApplies")
    && TruthyField(tcData, "purpose")
    && TruthyField(Field(tcData, "purpose").value, "consents")
    && !Purpose1Granted(Field(Field(tcData, "purpose").value, "consents").value)
  }

  /** The callback body for a successful, truthy `tcData`. */
  function MapTcData(tcData: Json): (r: TcfData)
    ensures r.gdpr == Some(if TruthyField(tcData, "gdprApplies") then 1 else 0)
    ensures r.tcString == Field(tcData, "tcString")
    ensures r.npa == 1 <==> DeniesPurpose1(tcData)
    ensures r.npa == 0 || r.npa == 1
  {
    var gdpr := if TruthyField(tcData, "gdprApplies") then 1 else 0;
    var npa := if DeniesPurpose1(tcData) then 1 else 0;
    TcfData(Some(gdpr), Field(tcData, "tcString"), npa)
  }

  /** `getTCF()`: the value its Promise resolves with. */
  function GetTcf(api: TcfApi): (r: TcfData)
    ensures !(api.Answers? && api.success && api.tcData.Some? && Truthy(api.tcData.value)) ==> r == DefaultTcf
    ensures api.Answers? && api.success && api.tcData.Some? && Truthy(api.tcData.value) ==> r == MapTcData(api.tcData.value)
  {
    match api
    case Answers(tcData, success) =>
      if !success || tcData.None? || !Truthy(tcData.value) then DefaultTcf else MapTcData(tcData.value)
    case _ => DefaultTcf
  }

  /** `hasPersonalizedAdsConsent(tcData)` */
  function HasPersonalizedAdsConsent(t: TcfData): (r: bool)
    ensures !r <==> t.gdpr != Some(0) && t.npa == 1
  {
    if t.gdpr == Some(0) then true
    else if t.npa == 1 then false
    else true
  }

  /** End to end: personalised ads are refused exactly when the platform
      answered in time with success and GDPR applies and a consents record
      withholds purpose 1; every other way the call can end allows them. */
  lemma ConsentEndToEnd(api: TcfApi)
    ensures !HasPersonalizedAdsConsent(GetTcf(api)) <==>
      api.Answers? && api.success && api.tcData.Some? && Truthy(api.tcData.value)
      && DeniesPurpose1(api.tcData.value)
  {
    if api.Answers? && api.success && api.tcData.Some? && Truthy(api.tcData.value) {
      var t := MapTcData(api.tcData.value);
      if DeniesPurpose1(api.tcData.value) {
        assert t.gdpr == Some(1);
      }
    }
  }

  /** When GDPR does not apply the non-personalised flag is never set, even
      with no consent record at all. */
  lemma NoGdprNoNpa(tcData: Json)
    requires !TruthyField(tcData, "gdprApplies")
    ensures MapTcData(tcData) == TcfData(Some(0), Field(tcData, "tcString"), 0)
  {
  }

  /** GDPR applies but there is no `purpose` object: `npa` stays 0. */
  lemma MissingPurposeKeepsPersonalised()
    ensures MapTcData(JObj(map["gdprApplies" := JBool(true), "tcString" := JStr("CO")]))
      == TcfData(Some(1), Some(JStr("CO")), 0)
  {
    var d := JObj(map["gdprApplies" := JBool(true), "tcString" := JStr("CO")]);
    assert !TruthyField(d, "purpose");
  }

  /** GDPR applies and a consents object is there: `npa` is 0 exactly when its
      key `'1'` holds `true`; a missing `'1'` (an empty object, or `'2'` only),
      `false` or a non-boolean value all give `npa` 1. */
  lemma Purpose1Withheld(fields: map<string, Json>)
    ensures var purpose := JObj(map["consents" := JObj(fields)]);
      MapTcData(JObj(map["gdprApplies" := JBool(true), "purpose" := purpose])).npa
        == if "1" in fields && fields["1"] == JBool(true) then 0 else 1
  {
    var purpose := JObj(map["consents" := JObj(fields)]);
    var d := JObj(map["gdprApplies" := JBool(true), "purpose" := purpose]);
    assert Field(d, "gdprApplies") == Some(JBool(true));
    assert Field(d, "purpose") == Some(purpose);
    assert Field(purpose, "consents") == Some(JObj(fields));
  }
}
