# Sage Pay request base class, modelled in Dafny

This project models the request base class of the Sage Pay driver for the
Omnipay payment library (`src/Message/AbstractRequest.php`). That class does three things:

- It keeps the gateway-specific parameters in a keyed parameter store. These are
  `vendor`, `accountType`, `referrerId`, `applyAVSCV2`, `apply3DSecure`,
  `createToken` and `storeToken`.
- It builds the four payload fields that start every transaction
  (`getBaseData`).
- It works out the URL the transaction is posted to (`getEndpoint`). That URL
  comes from the transaction type and the test-mode switch.

Files:

- `php_value.dfy` (module `PhpValue`): the scalar PHP values a parameter can
  hold, PHP's falsy rule, and the short ternary `?:`.
- `ascii.dfy` (module `Ascii`): ASCII lower-casing, which is what `strtolower`
  does, with its idempotence and case-insensitivity lemmas.
- `parameter_bag.dfy` (module `ParameterBag`): the keyed store as a
  `map<string, Value>`. Reading a key that was never stored gives the default
  the reader passes. Reading a key that was stored gives the stored value, even
  when that value is null.
- `abstract_request.dfy` (module `SagePayRequest`): the request, its accessors,
  the base payload and the endpoint.
- `wrappers.dfy` (module `Wrappers`): `Option`.

In the model, a request is an immutable
`Request(parameters, action, serviceOverride, testMode)`. A setter returns the
updated request.

- `action` is the transaction type, such as `PAYMENT`. Each concrete request
  type declares it; the base class reads `$this->action` without declaring it
  (lines 27 and 110).
- `serviceOverride` stands for a concrete request type that overrides the
  public `getService`. When there is no override, `GetService` answers the
  action (lines 25-28). `getBaseData` always sends the action as `TxType`
  (line 110). `getEndpoint` uses `getService()` (line 126). The two agree
  exactly when the service name equals the action, which is always the case
  without an override.
- Test mode comes from the framework base class. In the model it is a plain
  input.

The source's own documentation promises more than the code does. The model
follows the code:

- The docblock of `setAccountType` (line 40) marks `E` as the default. But
  `getAccountType` (lines 30-33) returns the stored value as it is. The fallback
  to `E` happens only at line 112, inside `getBaseData`, and it applies to every
  falsy value, not just to an unset one.
- The docblocks at lines 40-42, 70-75, 92-99, 143-144 and 159-162 list closed
  ranges of codes. No setter checks them: every value is stored and read back
  as given (`SettersDoNotValidate`).
- `getBaseData` (lines 106-115) never checks that a vendor is set. An unset
  vendor appears in the payload as null.

## Model

| member | source | states |
|---|---|---|
| PhpValue.Elvis | src/Message/AbstractRequest.php:112 | `a ?: b` yields `a` when `a` is truthy and the fallback when `a` is falsy, so the result is truthy whenever the fallback is |
| PhpValue.ElvisFallbackIff | src/Message/AbstractRequest.php:112 | with a truthy fallback, `?:` yields the fallback exactly when the first operand is falsy or equals the fallback |
| Ascii.Lower | src/Message/AbstractRequest.php:126 | lower-casing keeps the length and maps each character independently (letters A-Z to a-z, everything else kept) |
| Ascii.LowerIsLowerCase | src/Message/AbstractRequest.php:126 | a lower-cased string contains no upper-case letter |
| Ascii.LowerFixedIff | src/Message/AbstractRequest.php:126 | lower-casing leaves a string unchanged if and only if it has no upper-case letter |
| Ascii.LowerIdempotent | src/Message/AbstractRequest.php:126 | lower-casing twice equals lower-casing once |
| Ascii.LowerEqualIff | src/Message/AbstractRequest.php:126 | two strings lower-case to the same string if and only if they have equal length and agree position by position up to letter case |
| SagePayRequest.SetParam | src/Message/AbstractRequest.php:15-104 | a setter stores its value verbatim: its getter then returns exactly that value, every other parameter reads as before, no other stored key changes, and the transaction type and test mode are untouched |
| SagePayRequest.GetService | src/Message/AbstractRequest.php:25-28 | a request type that keeps this class's `getService` has the action as its service name. A request type that overrides it has the override's name |
| SagePayRequest.GetVendor | src/Message/AbstractRequest.php:15-18 | the vendor reads as null when it was never set |
| SagePayRequest.SetVendor | src/Message/AbstractRequest.php:20-23 | after setting the vendor, the getter returns the value set, and nothing but the vendor key changes |
| SagePayRequest.GetAccountType | src/Message/AbstractRequest.php:30-33 | the account type reads as null (no `E` default) when it was never set |
| SagePayRequest.SetAccountType | src/Message/AbstractRequest.php:44-47 | after setting the account type, the getter returns the value set, and nothing but the account type key changes |
| SagePayRequest.GetReferrerId | src/Message/AbstractRequest.php:49-52 | the referrer ID reads as null when it was never set |
| SagePayRequest.SetReferrerId | src/Message/AbstractRequest.php:57-60 | after setting the referrer ID, the getter returns the identical value, and nothing but the referrer ID key changes |
| SagePayRequest.GetApplyAVSCV2 | src/Message/AbstractRequest.php:62-65 | the AVS/CV2 flag reads as null when it was never set |
| SagePayRequest.SetApplyAVSCV2 | src/Message/AbstractRequest.php:77-80 | after setting the AVS/CV2 flag, the getter returns the value set, and nothing but the flag's key changes |
| SagePayRequest.GetApply3DSecure | src/Message/AbstractRequest.php:82-85 | the 3-D Secure flag reads as null when it was never set |
| SagePayRequest.SetApply3DSecure | src/Message/AbstractRequest.php:101-104 | after setting the 3-D Secure flag, the getter returns the value set, and nothing but the flag's key changes |
| SagePayRequest.SettersDoNotValidate | src/Message/AbstractRequest.php:15-172 | for every value, in or out of the documented range, each of the seven setters stores it and its getter reads it back unchanged: no validation, no coercion |
| SagePayRequest.SetParamLastWins | src/Message/AbstractRequest.php:15-104 | setting a parameter twice leaves the same request as setting only the second value |
| SagePayRequest.SetParamCommute | src/Message/AbstractRequest.php:15-104 | setting two different parameters gives the same request in either order |
| SagePayRequest.GetCreateToken | src/Message/AbstractRequest.php:151-154 | the create-token flag reads as 0 when it was never set |
| SagePayRequest.SetCreateToken | src/Message/AbstractRequest.php:146-149 | after setting the create-token flag, the getter returns the value set, and nothing but the flag's key changes |
| SagePayRequest.GetStoreToken | src/Message/AbstractRequest.php:169-172 | the store-token flag reads as 0 when it was never set |
| SagePayRequest.SetStoreToken | src/Message/AbstractRequest.php:164-167 | after setting the store-token flag, the getter returns the value set, and nothing but the flag's key changes |
| SagePayRequest.GetBaseData | src/Message/AbstractRequest.php:106-115 | the payload has exactly the keys VPSProtocol, TxType, Vendor and AccountType. VPSProtocol is "3.00". TxType is the action, and it equals the service name exactly when the service name is the action (always so without a `getService` override). Vendor is the vendor. AccountType is always truthy: it is the stored value when that is truthy, and "E" otherwise |
| SagePayRequest.BaseAccountTypeDefaultIff | src/Message/AbstractRequest.php:112 | the payload's AccountType is "E" if and only if the stored account type is unset, falsy, or "E" |
| SagePayRequest.BaseAccountTypeFallback | src/Message/AbstractRequest.php:112 | an unset account type, and one set to null, "" or "0", gives "E" in the payload |
| SagePayRequest.BaseAccountTypeInRange | src/Message/AbstractRequest.php:112 | E, M and C pass through unchanged, so the payload's account type lies in {E, M, C} whenever the stored one is falsy or one of them |
| SagePayRequest.BaseDataFrame | src/Message/AbstractRequest.php:106-115 | setting any parameter other than the vendor or account type, or switching test mode, leaves the base payload as it was |
| SagePayRequest.BaseDataCongruence | src/Message/AbstractRequest.php:106-115 | the base payload depends only on the action, the vendor and the account type: requests that agree on those three have equal payloads |
| SagePayRequest.PaymentScenarioPayload | src/Message/AbstractRequest.php:106-115 | vendor "testvendor" with type PAYMENT and nothing else set gives `{VPSProtocol: "3.00", TxType: "PAYMENT", Vendor: "testvendor", AccountType: "E"}`, and both token flags read 0 |
| SagePayRequest.GetEndpoint | src/Message/AbstractRequest.php:124-133 | the endpoint starts with the environment's service root followed by "/", ends with ".vsp", and its length is the root plus the service name plus five |
| SagePayRequest.ParseEndpointRoundTrip | src/Message/AbstractRequest.php:124-133 | the endpoint can be split back into the test-mode switch and the lower-cased service name; the split recovers both exactly |
| SagePayRequest.EndpointEqualIff | src/Message/AbstractRequest.php:126-132 | two requests have the same endpoint if and only if they share test mode and their service names differ only in letter case |
| SagePayRequest.EndpointTestModeOnlyChangesRoot | src/Message/AbstractRequest.php:128-132 | test mode selects the test or live root. The service path "/" + lower(service) + ".vsp" is the same in both modes, and the two endpoints differ |
| SagePayRequest.EndpointServiceIsLowerCase | src/Message/AbstractRequest.php:126 | the service segment of the endpoint has no upper-case letter, and pre-lowering the service name does not change the endpoint |
| SagePayRequest.SettersPreserveEndpoint | src/Message/AbstractRequest.php:25-28 | setting any parameter leaves the service name, and so the endpoint, as it was |
| SagePayRequest.PaymentScenarioEndpoint | src/Message/AbstractRequest.php:12-13 | a PAYMENT request that keeps this class's `getService` posts to the environment's root followed by `/payment.vsp`. That is `https://test.sagepay.com/gateway/service/payment.vsp` in test mode and the `live` host otherwise |

## Left out

- `sendData` (lines 117-122): this POSTs the payload through the HTTP client
  and hands the body to `createResponse`. It is network I/O through a
  collaborator the model cannot see.
- `createResponse` and the `Response` class (lines 135-138): response decoding
  belongs to a class that is not part of this model.
- The framework base class is not part of this model. This covers
  `getParameter`, `setParameter` and `getTestMode`. The store is modelled as a
  map, and test mode is a plain field.
- ParameterBag.Set: the store is an unordered map. A PHP array keeps
  insertion order, and the base class can expose its parameters in that order.
  `SagePayRequest.SetParamCommute` holds for the stored key/value pairs, not
  for that order.
- A request that has already been sent refusing further changes is not
  modelled. That guard lives in the base class `setParameter`.
- Fluent returns are not modelled: each setter returns the updated request.
  In the source, `setCreateToken` and `setStoreToken` return nothing
  (lines 148 and 166). The other setters return what the base class
  `setParameter` returns.
- SagePayRequest.GetCreateToken: assumes that the base class `getParameter`
  honours the default argument passed at line 153. That method is not part of
  this model.
- SagePayRequest.GetStoreToken: assumes the same of the default passed at
  line 171.
- Ascii.Lower: models `strtolower` as ASCII-only. Locale-dependent case
  mapping is not modelled.
- PhpValue.IsFalsy: covers null, booleans, integers and strings. Floats and
  arrays are not modelled, because the setters here are never documented to
  receive them.
- SagePayRequest.GetBaseData: the payload is a map, so the insertion order of
  the PHP array is not modelled.
- SagePayRequest.GetService: which concrete request types override
  `getService`, and with what name, is not part of this model. An override is
  an input (`serviceOverride`). `PaymentScenarioEndpoint` is stated for a request
  without an override. `GetBaseData` states that `TxType` equals the service
  name exactly when the service name equals the action.
- SagePayRequest.GetService: a null `action` is not modelled. PHP's
  `strtolower(null)` would give an empty service name. In the model, the
  action is always a string.
