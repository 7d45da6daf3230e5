/**
 The request base class of the Sage Pay gateway driver: the gateway-specific
 parameters a request carries, the payload fields every transaction type
 starts from, and the URL the request is posted to.

 A request is its parameter store, its transaction type (the `action` each
 concrete request type declares), the service name a concrete request type may
 substitute for the transaction type by overriding `getService`, and the
 test-mode switch of the framework base class. Here all of them are plain
 fields.
 */
module SagePayRequest {
  import opened PhpValue
  import opened Ascii
  import opened Wrappers
  import ParameterBag

  const LiveEndpoint: string := "https://live.sagepay.com/gateway/service"
  const TestEndpoint: string := "https://test.sagepay.com/gateway/service"

  /** Protocol version sent with every transaction. */
  const ProtocolVersion: string := "3.00"

  /** Account type sent when none, or a falsy one, is set: the e-commerce merchant account. */
  const DefaultAccountType: string := "E"

  /** Extension of every gateway service path. */
  const ServiceExtension: string := ".vsp"

  /** The gateway-specific parameters this class adds accessors for. */
  datatype Param = Vendor | AccountType | ReferrerId | ApplyAVSCV2 | Apply3DSecure | CreateToken | StoreToken

  /** The key each parameter is stored under. */
  function Key(p: Param): string {
    match p
    case Vendor => "vendor"
    case AccountType => "accountType"
    case ReferrerId => "referrerId"
    case ApplyAVSCV2 => "applyAVSCV2"
    case Apply3DSecure => "apply3DSecure"
    case CreateToken => "createToken"
    case StoreToken => "storeToken"
  }

  /** The default each getter asks the store for: 0 for the two token flags, null otherwise. */
  function Default(p: Param): Value {
    if p == CreateToken || p == StoreToken then Int(0) else Null
  }

  /** `serviceOverride` is None for a request type that keeps this class's `getService`,
      and Some(name) for one that overrides it to answer `name`. */
  datatype Request = Request(
    parameters: ParameterBag.Bag,
    action: string,
    serviceOverride: Option<string>,
    testMode: bool)

  /** The parameter store of `after` differs from that of `before` at most under `p`'s key,
      and the transaction type, service name and test-mode switch are untouched. */
  predicate ChangesOnly(before: Request, after: Request, p: Param) {
    && after.action == before.action
    && after.serviceOverride == before.serviceOverride
    && after.testMode == before.testMode
    && after.parameters - {Key(p)} == before.parameters - {Key(p)}
  }

  // ---------------------------------------------------------------------
  // Parameter accessors

  /** Distinct parameters live under distinct keys. */
  lemma KeyInjective(p: Param, q: Param)
    ensures Key(p) == Key(q) <==> p == q
  {
  }

  /** Reads a parameter, falling back to its default when it was never set. */
  function GetParam(req: Request, p: Param): Value {
    ParameterBag.Get(req.parameters, Key(p), Default(p))
  }

  /** Stores a parameter verbatim: no validation and no normalisation. */
  function SetParam(req: Request, p: Param, value: Value): (r: Request)
    ensures GetParam(r, p) == value
    ensures forall q :: q != p ==> GetParam(r, q) == GetParam(req, q)
    ensures ChangesOnly(req, r, p)
  {
    var r := req.(parameters := ParameterBag.Set(req.parameters, Key(p), value));
    forall q | q != p
      ensures GetParam(r, q) == GetParam(req, q)
    {
      KeyInjective(p, q);
      ParameterBag.GetSetOther(req.parameters, Key(p), value, Key(q), Default(q));
    }
    r
  }

  function GetVendor(req: Request): (v: Value)
    ensures Key(Vendor) !in req.parameters ==> v == Null
  {
    GetParam(req, Vendor)
  }

  function SetVendor(req: Request, value: Value): (r: Request)
    ensures GetVendor(r) == value
    ensures ChangesOnly(req, r, Vendor)
  {
    SetParam(req, Vendor, value)
  }

  /** The service name: this class answers the transaction type, unless a concrete
      request type overrides it. */
  function GetService(req: Request): (service: string)
    ensures req.serviceOverride.None? ==> service == req.action
    ensures req.serviceOverride.Some? ==> service == req.serviceOverride.value
  {
    match req.serviceOverride
    case None => req.action
    case Some(name) => name
  }

  function GetAccountType(req: Request): (v: Value)
    ensures Key(AccountType) !in req.parameters ==> v == Null
  {
    GetParam(req, AccountType)
  }

  function SetAccountType(req: Request, value: Value): (r: Request)
    ensures GetAccountType(r) == value
    ensures ChangesOnly(req, r, AccountType)
  {
    SetParam(req, AccountType, value)
  }

  function GetReferrerId(req: Request): (v: Value)
    ensures Key(ReferrerId) !in req.parameters ==> v == Null
  {
    GetParam(req, ReferrerId)
  }

  function SetReferrerId(req: Request, value: Value): (r: Request)
    ensures GetReferrerId(r) == value
    ensures ChangesOnly(req, r, ReferrerId)
  {
    SetParam(req, ReferrerId, value)
  }

  function GetApplyAVSCV2(req: Request): (v: Value)
    ensures Key(ApplyAVSCV2) !in req.parameters ==> v == Null
  {
    GetParam(req, ApplyAVSCV2)
  }

  function SetApplyAVSCV2(req: Request, value: Value): (r: Request)
    ensures GetApplyAVSCV2(r) == value
    ensures ChangesOnly(req, r, ApplyAVSCV2)
  {
    SetParam(req, ApplyAVSCV2, value)
  }

  function GetApply3DSecure(req: Request): (v: Value)
    ensures Key(Apply3DSecure) !in req.parameters ==> v == Null
  {
    GetParam(req, Apply3DSecure)
  }

  function SetApply3DSecure(req: Request, value: Value): (r: Request)
    ensures GetApply3DSecure(r) == value
    ensures ChangesOnly(req, r, Apply3DSecure)
  {
    SetParam(req, Apply3DSecure, value)
  }

  /** The token-request flag; 0 when it was never set. */
  function GetCreateToken(req: Request): (v: Value)
    ensures Key(CreateToken) !in req.parameters ==> v == Int(0)
  {
    GetParam(req, CreateToken)
  }

  function SetCreateToken(req: Request, value: Value): (r: Request)
    ensures GetCreateToken(r) == value
    ensures ChangesOnly(req, r, CreateToken)
  {
    SetParam(req, CreateToken, value)
  }

  /** The token-retention flag; 0 when it was never set. */
  function GetStoreToken(req: Request): (v: Value)
    ensures Key(StoreToken) !in req.parameters ==> v == Int(0)
  {
    GetParam(req, StoreToken)
  }

  function SetStoreToken(req: Request, value: Value): (r: Request)
    ensures GetStoreToken(r) == value
    ensures ChangesOnly(req, r, StoreToken)
  {
    SetParam(req, StoreToken, value)
  }

  /** Every value, in or out of the documented range, is stored and read back as given. */
  lemma SettersDoNotValidate(req: Request, v: Value)
    ensures GetVendor(SetVendor(req, v)) == v
    ensures GetAccountType(SetAccountType(req, v)) == v
    ensures GetReferrerId(SetReferrerId(req, v)) == v
    ensures GetApplyAVSCV2(SetApplyAVSCV2(req, v)) == v
    ensures GetApply3DSecure(SetApply3DSecure(req, v)) == v
    ensures GetCreateToken(SetCreateToken(req, v)) == v
    ensures GetStoreToken(SetStoreToken(req, v)) == v
  {
  }

  /** Setting a parameter twice keeps only the second value. */
  lemma SetParamLastWins(req: Request, p: Param, v: Value, w: Value)
    ensures SetParam(SetParam(req, p, v), p, w) == SetParam(req, p, w)
  {
  }

  /** Setting two different parameters gives the same request in either order. */
  lemma SetParamCommute(req: Request, p: Param, v: Value, q: Param, w: Value)
    requires p != q
    ensures SetParam(SetParam(req, p, v), q, w) == SetParam(SetParam(req, q, w), p, v)
  {
    KeyInjective(p, q);
  }

  // ---------------------------------------------------------------------
  // Base payload

  const BaseKeys: set<string> := {"VPSProtocol", "TxType", "Vendor", "AccountType"}

  /** The fields every transaction type's payload starts from. */
  function GetBaseData(req: Request): (data: map<string, Value>)
    ensures data.Keys == BaseKeys
    ensures data["VPSProtocol"] == Str(ProtocolVersion)
    ensures data["TxType"] == Str(req.action)
    ensures data["TxType"] == Str(GetService(req)) <==> GetService(req) == req.action
    ensures data["Vendor"] == GetVendor(req)
    ensures !IsFalsy(data["AccountType"])
    ensures data["AccountType"] == GetAccountType(req) || data["AccountType"] == Str(DefaultAccountType)
    ensures !IsFalsy(GetAccountType(req)) ==> data["AccountType"] == GetAccountType(req)
  {
    map[
      "VPSProtocol" := Str(ProtocolVersion),
      "TxType" := Str(req.action),
      "Vendor" := GetVendor(req),
      "AccountType" := Elvis(GetAccountType(req), Str(DefaultAccountType))
    ]
  }

  /** The payload's account type is "E" exactly when the stored one is unset, falsy, or "E" itself. */
  lemma BaseAccountTypeDefaultIff(req: Request)
    ensures GetBaseData(req)["AccountType"] == Str(DefaultAccountType)
        <==> (Key(AccountType) !in req.parameters || IsFalsy(GetAccountType(req)) || GetAccountType(req) == Str(DefaultAccountType))
  {
  }

  /** Unset, null, "" and "0" all fall back to "E". */
  lemma BaseAccountTypeFallback(req: Request, v: Value)
    requires v == Null || v == Str("") || v == Str("0")
    ensures GetBaseData(req.(parameters := req.parameters - {Key(AccountType)}))["AccountType"] == Str("E")
    ensures GetBaseData(SetAccountType(req, v))["AccountType"] == Str("E")
  {
  }

  /** Each documented account type passes through unchanged, so the payload's value stays
      within E, M and C whenever the stored one is unset, falsy or one of them. */
  lemma BaseAccountTypeInRange(req: Request)
    requires IsFalsy(GetAccountType(req)) || GetAccountType(req) in {Str("E"), Str("M"), Str("C")}
    ensures GetBaseData(req)["AccountType"] in {Str("E"), Str("M"), Str("C")}
    ensures !IsFalsy(GetAccountType(req)) ==> GetBaseData(req)["AccountType"] == GetAccountType(req)
  {
  }

  /** Setting a parameter other than the vendor or account type, or switching test mode,
      leaves the base payload as it was. */
  lemma BaseDataFrame(req: Request, p: Param, value: Value, testMode: bool)
    requires p != Vendor && p != AccountType
    ensures GetBaseData(SetParam(req, p, value)) == GetBaseData(req)
    ensures GetBaseData(req.(testMode := testMode)) == GetBaseData(req)
  {
  }

  /** Requests that agree on the action, the vendor and the account type have the same base payload. */
  lemma BaseDataCongruence(a: Request, b: Request)
    requires a.action == b.action
    requires GetVendor(a) == GetVendor(b)
    requires GetAccountType(a) == GetAccountType(b)
    ensures GetBaseData(a) == GetBaseData(b)
  {
  }

  // ---------------------------------------------------------------------
  // Endpoint

  /** The gateway host and service root for the chosen environment. */
  function BaseUrl(testMode: bool): string {
    if testMode then TestEndpoint else LiveEndpoint
  }

  /** The part of the URL after the service root: "/", the lower-cased service name, ".vsp". */
  function ServicePath(service: string): string {
    "/" + Lower(service) + ServiceExtension
  }

  /** The URL the request is posted to: the environment's service root, then the
      lower-cased service name with the service extension. */
  function GetEndpoint(req: Request): (url: string)
    ensures |url| == |BaseUrl(req.testMode)| + 1 + |GetService(req)| + |ServiceExtension|
    ensures url[..|BaseUrl(req.testMode)| + 1] == BaseUrl(req.testMode) + "/"
    ensures url[|url| - |ServiceExtension|..] == ServiceExtension
  {
    BaseUrl(req.testMode) + ServicePath(GetService(req))
  }

  /** Splits a URL of the shape `root + "/" + name + ".vsp"` back into the environment
      (true for the test root) and the name; None for any other URL. */
  function ParseEndpoint(url: string): (r: Option<(bool, string)>)
    ensures r.Some? ==> |url| >= |LiveEndpoint| + 1 + |ServiceExtension|
  {
    var n := |LiveEndpoint| + 1;
    if |url| < n + |ServiceExtension| || url[|url| - |ServiceExtension|..] != ServiceExtension then None
    else if url[..n] == TestEndpoint + "/" then Some((true, url[n..|url| - |ServiceExtension|]))
    else if url[..n] == LiveEndpoint + "/" then Some((false, url[n..|url| - |ServiceExtension|]))
    else None
  }

  /** Cutting `root + "/" + name + ".vsp"` at the root's length plus one and before the
      extension gives back the pieces it was built from. */
  lemma SplitServiceUrl(root: string, name: string)
    ensures var url := root + ServicePath(name);
      && |url| >= |root| + 1 + |ServiceExtension|
      && url[..|root| + 1] == root + "/"
      && url[|url| - |ServiceExtension|..] == ServiceExtension
      && url[|root| + 1..|url| - |ServiceExtension|] == Lower(name)
  {
    var url := root + ServicePath(name);
    assert url == (root + "/") + Lower(name) + ServiceExtension;
  }

  /** The endpoint determines the environment and the lower-cased service name. */
  lemma ParseEndpointRoundTrip(req: Request)
    ensures ParseEndpoint(GetEndpoint(req)) == Some((req.testMode, Lower(GetService(req))))
  {
    assert |TestEndpoint| == |LiveEndpoint|;
    assert TestEndpoint + "/" != LiveEndpoint + "/" by {
      assert (TestEndpoint + "/")[8] != (LiveEndpoint + "/")[8];
    }
    SplitServiceUrl(BaseUrl(req.testMode), GetService(req));
  }

  /** Two requests share an endpoint exactly when they are in the same environment and
      their service names differ at most in letter case. */
  lemma EndpointEqualIff(a: Request, b: Request)
    ensures GetEndpoint(a) == GetEndpoint(b)
        <==> (a.testMode == b.testMode && EqualIgnoringCase(GetService(a), GetService(b)))
  {
    ParseEndpointRoundTrip(a);
    ParseEndpointRoundTrip(b);
    LowerEqualIff(GetService(a), GetService(b));
  }

  /** Switching environment changes only the root; the service path is the same in both. */
  lemma EndpointTestModeOnlyChangesRoot(req: Request)
    ensures GetEndpoint(req.(testMode := true)) == TestEndpoint + ServicePath(GetService(req))
    ensures GetEndpoint(req.(testMode := false)) == LiveEndpoint + ServicePath(GetService(req))
    ensures GetEndpoint(req.(testMode := true)) != GetEndpoint(req.(testMode := false))
  {
    EndpointEqualIff(req.(testMode := true), req.(testMode := false));
  }

  /** The service part of the endpoint has no upper-case letter, and lower-casing it again changes nothing. */
  lemma EndpointServiceIsLowerCase(req: Request)
    ensures IsLowerCase(GetEndpoint(req)[|BaseUrl(req.testMode)| + 1..|GetEndpoint(req)| - |ServiceExtension|])
    ensures GetEndpoint(req.(serviceOverride := Some(Lower(GetService(req))))) == GetEndpoint(req)
  {
  }

  /** Setting any parameter leaves the service name and the endpoint as they were. */
  lemma SettersPreserveEndpoint(req: Request, p: Param, value: Value)
    ensures GetService(SetParam(req, p, value)) == GetService(req)
    ensures GetEndpoint(SetParam(req, p, value)) == GetEndpoint(req)
  {
  }

  // ---------------------------------------------------------------------
  // Worked scenario: a PAYMENT request from vendor "testvendor" with nothing else set.

  lemma LowerPayment()
    ensures Lower("PAYMENT") == "payment"
  {
    var r := Lower("PAYMENT");
    assert r[0] == 'p' && r[1] == 'a' && r[2] == 'y' && r[3] == 'm';
    assert r[4] == 'e' && r[5] == 'n' && r[6] == 't';
  }

  function PaymentRequest(testMode: bool): Request {
    SetVendor(Request(map[], "PAYMENT", None, testMode), Str("testvendor"))
  }

  lemma PaymentService(testMode: bool)
    ensures GetService(PaymentRequest(testMode)) == "PAYMENT"
  {
  }

  lemma PaymentServicePath()
    ensures ServicePath("PAYMENT") == "/payment.vsp"
  {
    LowerPayment();
  }

  lemma PaymentScenarioEndpoint(testMode: bool)
    ensures GetEndpoint(PaymentRequest(testMode)) == BaseUrl(testMode) + "/payment.vsp"
  {
    PaymentService(testMode);
    PaymentServicePath();
  }

  lemma PaymentScenarioPayload(testMode: bool)
    ensures GetBaseData(PaymentRequest(testMode))
         == map["VPSProtocol" := Str("3.00"), "TxType" := Str("PAYMENT"),
                "Vendor" := Str("testvendor"), "AccountType" := Str("E")]
    ensures GetCreateToken(PaymentRequest(testMode)) == Int(0)
    ensures GetStoreToken(PaymentRequest(testMode)) == Int(0)
  {
  }
}
