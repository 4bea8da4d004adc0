/** The caller's overrides and their extraction from a request's query parameters. */
module ConfigParams {
  import opened Common

  /**
   * Overrides of a build: three strings ("" means not supplied) and three
   * tri-state booleans (None means not supplied).
   */
  datatype TykExtensionConfigParams = TykExtensionConfigParams(
    listenPath: string,
    upstreamUrl: string,
    customDomain: string,
    authentication: Option<bool>,
    allowList: Option<bool>,
    validateRequest: Option<bool>)

  const NoParams := TykExtensionConfigParams("", "", "", None, None, None)

  const ListenPathKey: string := "listenPath"
  const UpstreamUrlKey: string := "upstreamURL"
  const CustomDomainKey: string := "customDomain"
  const ValidateRequestKey: string := "validateRequest"
  const AllowListKey: string := "allowList"

  /** "true" and "false" parse; anything else leaves the boolean absent. */
  function ParseBool(s: string): (r: Option<bool>)
    ensures r == Some(true) <==> s == "true"
    ensures r == Some(false) <==> s == "false"
  {
    if s == "true" then Some(true) else if s == "false" then Some(false) else None
  }

  function StringParam(query: map<string, string>, key: string): string
  {
    if key in query then query[key] else ""
  }

  function BoolParam(query: map<string, string>, key: string): Option<bool>
  {
    if key in query then ParseBool(query[key]) else None
  }

  /** True when at least one of the five recognised keys is present. */
  predicate AnyParamGiven(query: map<string, string>)
  {
    ListenPathKey in query || UpstreamUrlKey in query || CustomDomainKey in query
    || ValidateRequestKey in query || AllowListKey in query
  }

  /**
   * The overrides a request carries, or None when it names none of the
   * recognised keys. The authentication override is never taken from a request.
   */
  function GetTykExtensionConfigParams(query: map<string, string>): (r: Option<TykExtensionConfigParams>)
    ensures r.None? <==> !AnyParamGiven(query)
    ensures r.Some? ==> r.value.authentication.None?
    ensures r.Some? ==>
      (ListenPathKey in query ==> r.value.listenPath == query[ListenPathKey]) &&
      (UpstreamUrlKey in query ==> r.value.upstreamUrl == query[UpstreamUrlKey]) &&
      (CustomDomainKey in query ==> r.value.customDomain == query[CustomDomainKey])
    ensures r.Some? ==>
      (ListenPathKey !in query ==> r.value.listenPath == "") &&
      (UpstreamUrlKey !in query ==> r.value.upstreamUrl == "") &&
      (CustomDomainKey !in query ==> r.value.customDomain == "")
    ensures r.Some? ==>
      (AllowListKey !in query ==> r.value.allowList.None?) &&
      (ValidateRequestKey !in query ==> r.value.validateRequest.None?)
    ensures r.Some? ==>
      (AllowListKey in query ==> r.value.allowList == ParseBool(query[AllowListKey])) &&
      (ValidateRequestKey in query ==> r.value.validateRequest == ParseBool(query[ValidateRequestKey]))
  {
    if !AnyParamGiven(query) then None
    else Some(TykExtensionConfigParams(
      StringParam(query, ListenPathKey),
      StringParam(query, UpstreamUrlKey),
      StringParam(query, CustomDomainKey),
      None,
      BoolParam(query, AllowListKey),
      BoolParam(query, ValidateRequestKey)))
  }

  /** Two queries carry the same entry, or both lack it, at `key`. */
  predicate SameAt(q1: map<string, string>, q2: map<string, string>, key: string)
  {
    (key in q1 <==> key in q2) && (key in q1 ==> q1[key] == q2[key])
  }

  /** Two queries agree on the five recognised keys; other keys may differ. */
  predicate SameRecognised(q1: map<string, string>, q2: map<string, string>)
  {
    SameAt(q1, q2, ListenPathKey) && SameAt(q1, q2, UpstreamUrlKey) && SameAt(q1, q2, CustomDomainKey)
    && SameAt(q1, q2, ValidateRequestKey) && SameAt(q1, q2, AllowListKey)
  }

  /** Keys other than the five recognised ones do not affect the extracted overrides. */
  lemma ExtractIgnoresOtherKeys(q1: map<string, string>, q2: map<string, string>)
    requires SameRecognised(q1, q2)
    ensures GetTykExtensionConfigParams(q1) == GetTykExtensionConfigParams(q2)
  {
  }

  function BoolText(b: bool): string
  {
    if b then "true" else "false"
  }

  /** The query a client builds for the given overrides: one key per supplied field. */
  function ToQuery(p: TykExtensionConfigParams): map<string, string>
  {
    var q0: map<string, string> := map[];
    var q1 := if p.listenPath != "" then q0[ListenPathKey := p.listenPath] else q0;
    var q2 := if p.upstreamUrl != "" then q1[UpstreamUrlKey := p.upstreamUrl] else q1;
    var q3 := if p.customDomain != "" then q2[CustomDomainKey := p.customDomain] else q2;
    var q4 := if p.validateRequest.Some? then q3[ValidateRequestKey := BoolText(p.validateRequest.value)] else q3;
    if p.allowList.Some? then q4[AllowListKey := BoolText(p.allowList.value)] else q4
  }

  /**
   * Extraction inverts the encoding: a request whose recognised keys are those
   * built from some overrides yields exactly those overrides, whatever other keys
   * it carries, and a request with none of them yields None.
   */
  lemma ExtractRoundTrip(p: TykExtensionConfigParams, query: map<string, string>)
    requires p.authentication.None?
    requires SameRecognised(query, ToQuery(p))
    ensures GetTykExtensionConfigParams(query) == if p == NoParams then None else Some(p)
  {
    var q := ToQuery(p);
    ExtractIgnoresOtherKeys(query, q);
    assert ListenPathKey in q <==> p.listenPath != "";
    assert UpstreamUrlKey in q <==> p.upstreamUrl != "";
    assert CustomDomainKey in q <==> p.customDomain != "";
    assert ValidateRequestKey in q <==> p.validateRequest.Some?;
    assert AllowListKey in q <==> p.allowList.Some?;
    if p != NoParams {
      var r := GetTykExtensionConfigParams(q).value;
      assert r.listenPath == p.listenPath;
      assert r.upstreamUrl == p.upstreamUrl;
      assert r.customDomain == p.customDomain;
      assert r.allowList == p.allowList;
      assert r.validateRequest == p.validateRequest;
    }
  }

  /** A recognised key with an empty value still yields overrides, all of them unset. */
  lemma ExtractEmptyValue()
    ensures GetTykExtensionConfigParams(map[ListenPathKey := ""]) == Some(NoParams)
  {
  }

  /** The request of the first extraction test: all five keys given. */
  lemma ExtractAllParams()
    ensures GetTykExtensionConfigParams(map[
      ListenPathKey := "/listen-api", UpstreamUrlKey := "https://upstream.org",
      CustomDomainKey := "custom-domain.org", ValidateRequestKey := "true", AllowListKey := "false"])
      == Some(TykExtensionConfigParams("/listen-api", "https://upstream.org", "custom-domain.org",
                                       None, Some(false), Some(true)))
  {
  }

  /** A request that gives only allowList yields overrides with only that field set. */
  lemma ExtractSingleParam()
    ensures GetTykExtensionConfigParams(map[AllowListKey := "true"])
      == Some(NoParams.(allowList := Some(true)))
  {
  }
}
