# ChargeAPI relay: a verified model of `main.py`

ChargeAPI is a small HTTP relay for mobile top-ups. A client POSTs a charge
request to `/charge`. The request holds an amount, an 11-digit phone number,
the `super` and `daemi` flags, and a charge type (`direct` or `pincode`).

The relay then does five things:

1. It classifies the number to an operator code: `MTN`, `#MTN`, `!MTN`, `MCI`,
   `WiMax`, `RTL` or `!RTL`.
2. It builds the reseller's query parameters.
3. It adds a random JSONP callback name.
4. It calls the reseller's endpoint for the charge type.
5. It strips the JSONP wrapper from the reply and returns the parsed JSON.

Each failure becomes a status:

- 500 when the web-service id is not configured;
- 400 when no operator matches the number;
- 504 on a timeout;
- 503 on any other transport failure or an HTTP error status;
- 502 when the unwrapped body is not JSON.

The project models this, one module per file:

- `Decimal` (`decimal.dfy`): Python's `str()` of an integer, with a round trip
  and injectivity.
- `Operators` (`operator.dfy`): the operator codes and `_get_operator`. The
  fixed-length regular expressions are restated as character predicates.
- `Requests` (`request.dfy`): the charge type, the request with its amount
  bound, and the endpoint table.
- `Payload` (`payload.dfy`): `_prep_api_payload`, a map from query parameters
  to values. It is built from a base part, a charge part and an optional
  product id.
- `Jsonp` (`jsonp.dfy`): the callback name, built by a loop as in the source,
  and the unwrap expression `replace` / `strip` / `lstrip('(')` /
  `rstrip(')')`.
- `Handler` (`handler.dfy`): `create_charge`, meaning the order of its checks,
  the one outbound request and the exception-to-status mapping.

The environment is made of parameters:

- the configured web-service id is an `Option<string>`;
- the random nonce and the fifteen random digits are inputs with their
  ranges as preconditions;
- the reseller is a function `exchange` from the outbound request to an
  outcome (a response, a timeout, or another failure);
- `json.loads` is a partial function `parse`.

Some behaviours of the code that a reader may not expect, all of which the
model keeps:

- **Digits.** `\d` in the classifier's patterns matches any Unicode decimal
  digit, because the patterns are `str` patterns without `re.ASCII`. So
  `0912345678` followed by an Extended Arabic-Indic nine is an MCI number
  (`Operators.PersianDigitExample`). Only the `09`, the class character and
  the length are ASCII-bound.
- **Callback removal.** The callback name is removed wherever it occurs in
  the reply (`str.replace`), not only at the front.
- **Parentheses.** Every leading `(` and every trailing `)` is stripped, not
  only one pair.
- **HTTP errors.** Only statuses 400 to 599 raise (`raise_for_status`).
  Other non-2xx statuses are treated like 2xx: their body is unwrapped and
  parsed.
- **Amount.** An amount outside 2000..20000 is rejected by the request model
  before the handler runs. The framework answers that itself (its default is
  422, not 400). So the handler model requires a valid request.
- **Phone format.** The phone format is checked only by the classifier. A
  malformed number is therefore answered with 400 "operator not found".
- **Endpoint check.** The endpoint check at `main.py:133-138` can never fail,
  because both charge types have an endpoint (`Requests.EndpointsCoverChargeTypes`).
  The model keeps the branch, and `Handler.StatusMeaning` shows that 400
  means an unclassified number.

## Model

| member | source | states |
|---|---|---|
| Decimal.DigitChar | main.py:148 | `str()` of a digit 0..9 is one ASCII digit whose code is `'0'` plus the digit |
| Decimal.DigitValue | main.py:148 | reading an ASCII digit back gives 0..9, and its numeral is the same character |
| Decimal.NatToDecimal | main.py:95 | `str(n)` for `n >= 0` is non-empty, all ASCII digits, with no leading zero unless `n` is 0 |
| Decimal.IntToDecimal | main.py:95 | `str(n)` starts with `-` exactly when `n` is negative, and is digits otherwise |
| Decimal.DecimalRoundTrip | main.py:95 | reading back the numeral of `n` gives `n` |
| Decimal.IntToDecimalInjective | main.py:95 | distinct amounts have distinct numerals |
| Operators.Operator.Code | main.py:27 | each operator code is non-empty and has no `-`, so the product id can be split at its dashes |
| Operators.CodeInjective | main.py:27 | distinct operators have distinct codes |
| Operators.AsciiDigitIsDecimal | main.py:46 | every ASCII digit matches `\d` |
| Operators.IsDecimalDigit | main.py:46 | `\d` on a `str` pattern: a Unicode decimal digit; ASCII digits are included (`AsciiDigitIsDecimal`), and so are other scripts' digits (`PersianDigitExample`) |
| Operators.IsMtnNumber | main.py:46 | `re.fullmatch(r"09[03]\d{8}", phone)`; it selects the MTN tiers (`MtnRule`) and overlaps no other pattern (`PrefixClassesDisjoint`) |
| Operators.IsMciNumber | main.py:53 | `re.fullmatch(r"09[19]\d{8}", phone)`; it selects MCI (`MciAndWiMaxRules`) |
| Operators.IsWiMaxNumber | main.py:56 | `re.fullmatch(r"094\d{8}", phone)`; it selects WiMax (`MciAndWiMaxRules`) |
| Operators.IsRtlNumber | main.py:59 | `re.fullmatch(r"092[0-2]\d{7}", phone)`; it selects the RTL tiers (`RtlRule`) |
| Operators.GetOperator | main.py:43-62 | any classified number is 11 characters: `09`, then characters matching `\d` |
| Operators.PrefixClassesDisjoint | main.py:46-59 | the four patterns match disjoint sets of numbers, so the rule order never decides the result |
| Operators.MtnRule | main.py:46-51 | `09[03]` + 8 digits gives `!MTN` when `super` is set, else `#MTN` when `daemi` is set, else `MTN`; and only such numbers give these codes |
| Operators.MciAndWiMaxRules | main.py:53-57 | `09[19]` + 8 digits gives `MCI` and `094` + 8 digits gives `WiMax`, whatever the flags; and only those numbers do |
| Operators.RtlRule | main.py:59-60 | `092[0-2]` + 7 digits gives `!RTL` when `super` is set, else `RTL`, and `daemi` is ignored; and only those numbers do |
| Operators.NotFoundRule | main.py:43-62 | the classifier returns None exactly when no pattern matches |
| Operators.MciExample | main.py:53-54 | `09123456789` is MCI with any flags |
| Operators.PersianDigitExample | main.py:53-54 | a number ending in a non-ASCII decimal digit is classified too |
| Requests.ChargeType.Name | main.py:39 | the wire name is `pincode` exactly for the PIN code type |
| Requests.ChargeRequest.Valid | main.py:35 | the amount bound 2000..20000 inclusive; `CreateCharge` requires it, since requests outside it never reach the handler |
| Requests.EndpointsCoverChargeTypes | main.py:22-25 | every charge type has an endpoint, and the two endpoints differ |
| Payload.NamesDistinct | main.py:67-95 | distinct parameters are sent under distinct query keys |
| Payload.KeySetsDisjoint | main.py:67-92 | base keys, charge keys and `data[productId]` do not overlap |
| Payload.BaseValue | main.py:67-84 | the value of each base key; stated by `BaseFields` |
| Payload.BaseParams | main.py:67-84 | the base dict, the base keys with their values; stated by `BaseFields` and kept whole in the payload by `PayloadKeepsBase` |
| Payload.ChargeParams | main.py:86-90 | the charge dict; its values reach the payload (`PayloadCarriesRequest`) |
| Payload.ProductName | main.py:95 | the f-string `CC-{operator}-{amount}`; it splits back into its parts (`ProductNameParts`) and is injective (`ProductNameInjective`) |
| Payload.PrepApiPayload | main.py:64-97 | `_prep_api_payload`; its keys are stated by `PayloadKeys`, its values by `PayloadKeepsBase`, `PayloadIdAndNonce`, `PayloadCarriesRequest` and `ProductIdOnlyForPincode` |
| Payload.BaseFields | main.py:67-84 | the base part's values: the configured id, the nonce, and the constants of the source |
| Payload.PayloadKeys | main.py:64-97 | the payload's keys are exactly the base and charge keys, plus `data[productId]` for `pincode` |
| Payload.PayloadKeepsBase | main.py:67-92 | removing the charge keys and the product id from the payload leaves the base part unchanged, so the merge loses nothing |
| Payload.PayloadIdAndNonce | main.py:68-83 | the web-service id is sent as configured, and the nonce is sent as drawn, within 1111111111111..9999999999999 |
| Payload.PayloadCarriesRequest | main.py:86-90 | `data[amount]`, `data[cellphone]` and `data[type]` hold the amount, the phone and the operator code |
| Payload.ProductIdOnlyForPincode | main.py:94-95 | `data[productId]` is present iff the type is `pincode`, and then is `CC-` + code + `-` + `str(amount)` |
| Payload.ProductNameParts | main.py:95 | the product id splits back into `CC-`, the code, `-` and the amount's numeral |
| Payload.ProductNameInjective | main.py:95 | distinct operator and amount pairs give distinct product ids |
| Payload.ProductNameExample | main.py:95 | MTN with 5000 is `CC-MTN-5000` |
| Payload.ProductIdExample | main.py:94-95 | a PIN code purchase for MTN with 5000 sends product id `CC-MTN-5000` |
| Jsonp.DigitString | main.py:148 | the joined draws have one numeral per draw, in order |
| Jsonp.CallbackName | main.py:148-149 | `callback_` and the joined draws; its shape and the draws read back are stated by `CallbackNameShape`, and `MakeCallbackName` is proved to build it |
| Jsonp.CallbackNameShape | main.py:148-149 | the callback name is `callback_` + 15 ASCII digits, and the draws can be read back from it |
| Jsonp.MakeCallbackName | main.py:148-149 | the 15-step loop builds exactly that name, so it has that shape and gives back its draws |
| Jsonp.CallbackNameFramesJson | main.py:149 | a callback name is non-empty, does not start with `(` and does not end with `)` |
| Jsonp.RemoveAll | main.py:159 | `replace(name, "")` never lengthens the text |
| Jsonp.RemoveAllWithoutOccurrence | main.py:159 | removing a name that does not occur changes nothing |
| Jsonp.RemoveAllWithOccurrence | main.py:159 | removing a non-empty name that does occur shortens the text |
| Jsonp.RemoveAllLeading | main.py:159 | a leading occurrence of the name is removed, and removal continues after it |
| Jsonp.LStrip | main.py:159 | `lstrip(cs)` removes the longest prefix of characters in `cs`, and leaves a suffix not starting with one |
| Jsonp.RStrip | main.py:159 | `rstrip(cs)` removes the longest suffix of characters in `cs`, and leaves a prefix not ending with one |
| Jsonp.LStripExact | main.py:159 | left-stripping characters of `cs` in front of text that does not start with one of them yields that text |
| Jsonp.RStripExact | main.py:159 | right-stripping characters of `cs` after text that does not end with one of them yields that text |
| Jsonp.Strip | main.py:159 | `strip()` over the 29 whitespace code points of `str.isspace`; `StripUnchanged` states it keeps clean text |
| Jsonp.StripParens | main.py:159 | `.lstrip('(').rstrip(')')`; `StripParensExact` and `StripParensIdempotent` state what it removes |
| Jsonp.Unwrap | main.py:159 | the unwrapped text never starts with `(` and never ends with `)` |
| Jsonp.StripParensIdempotent | main.py:159 | stripping the parentheses again changes nothing |
| Jsonp.NoOccurrenceAcrossParens | main.py:159 | a name absent from the JSON, not starting with `(` nor ending with `)`, does not occur in the parenthesised JSON |
| Jsonp.StripUnchanged | main.py:159 | `strip()` leaves text with no surrounding whitespace as it is |
| Jsonp.StripParensExact | main.py:159 | stripping `k` opening and `m` closing parentheses around the JSON yields the JSON |
| Jsonp.FramedTextEnds | main.py:159 | the parenthesised JSON has no surrounding whitespace |
| Jsonp.UnwrapRecoversJson | main.py:159 | the callback name + `(`…`(` + JSON + `)`…`)` unwraps to exactly the JSON, when the JSON does not contain the name, has no surrounding whitespace, and does not start with `(` or end with `)` |
| Jsonp.UnwrapExample | main.py:159 | `callback_123(({"status":"ok"}))` with name `callback_123` unwraps to `{"status":"ok"}` |
| Handler.ConfigurationCheckedFirst | main.py:115-119 | a missing or empty web-service id answers 500, before the operator is looked at and with nothing sent |
| Handler.UnknownOperatorRejected | main.py:121-131 | with the id configured, an unclassified number answers 400 with nothing sent |
| Handler.Truthy | main.py:115-134 | Python truthiness of `WEB_SERVICE_ID` and `operator`; `OperatorCodeTruthy` shows `not operator` means None |
| Handler.IsHttpError | main.py:156 | the statuses `raise_for_status` raises for, 400..599; they map to 503 (`ErrorMapping`) |
| Handler.SentParams | main.py:151-152 | the payload with `callback` added; stated by `SentParamsKeys` |
| Handler.Respond | main.py:154-178 | the `try` block and its `except` clauses; `ErrorMapping` gives each result its one cause, `WrappedBodyParsed` the wrapped-reply case |
| Handler.CreateCharge | main.py:110-178 | `create_charge`; its check order and statuses are stated by `ConfigurationCheckedFirst`, `UnknownOperatorRejected`, `RequestSentWhenClassified`, `StatusMeaning` and `WrappedReplyRelayed` |
| Handler.OperatorCodeTruthy | main.py:127 | `not operator` holds exactly when the classifier returned None |
| Handler.RequestSentWhenClassified | main.py:133-155 | a request is sent iff the id is configured and the number classified. It goes to the charge type's endpoint with the payload, the callback and a 10-second timeout. The reply is the reseller's outcome as mapped by the `try` block |
| Handler.SentParamsKeys | main.py:151-152 | the sent parameters are the whole payload plus `callback` = the callback name, and `callback` is no payload key |
| Handler.ErrorMapping | main.py:154-178 | each result of the `try` block has one cause: 504 iff a timeout; 503 iff another transport failure or a 4xx/5xx status; 502 iff a non-error body that does not parse once unwrapped; a reply iff it parses, and the reply is the parsed body |
| Handler.StatusMeaning | main.py:115-178 | 500 iff the id is unconfigured; 400 iff configured and unclassified; no other status can come back; 502/503/504 only after a request was sent |
| Handler.WrappedBodyParsed | main.py:155-162 | a non-error reply of the JSON wrapped in the callback yields that JSON parsed, or 502 |
| Handler.WrappedReplyRelayed | main.py:115-162 | end to end: with the service configured and the number classified, a reseller that wraps the JSON in the `callback` it was sent, under a non-error status, gets that JSON relayed to the client parsed |

## Left out

- The HTTP call (`requests.get` and `raise_for_status`, main.py:155-156) is
  the parameter `exchange`. The outbound request is recorded as its URL,
  parameters and timeout. Query-string encoding, parameter order, redirects and
  the decoding of `response.text` are not modelled.
- `json.loads` (main.py:161) is the parameter `parse`. The JSON grammar is
  not modelled.
- The FastAPI application, routing, `async`, and the request parsing by
  pydantic (main.py:31-39, 101-110) are left out. Only the amount bound
  (`ChargeRequest.Valid`) and the charge-type enumeration remain. Requests
  outside the bound never reach the handler, which requires `Valid()`.
- `load_dotenv` and `os.getenv` (main.py:15-18) are left out. The web-service
  id is an `Option<string>` input.
- `random.randint` (main.py:83, 148) is replaced by inputs: the nonce, and the
  fifteen draws for the callback suffix, each with its range as a
  precondition.
- The `detail` texts of the HTTP exceptions are not modelled, only their
  status codes.
- Exceptions that the source does not catch are not modelled, for example
  errors other than `RequestException` and `JSONDecodeError`.
- Query keys are an enumeration (`Payload.Param`). Its `Name()` gives the key
  string that goes on the wire, and `Payload.NamesDistinct` shows that the
  enumeration is faithful.
- The classifier's `\d` is the Unicode decimal-digit class. It is modelled as
  the 68 ten-digit blocks of Unicode 15.0. Other Unicode versions are not
  modelled.
