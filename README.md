# Open-finance prototypes: agent guardrail and carbon enrichment

This project models, in Dafny, the business logic of a small open-finance
gateway prototype:

- **The agent spending guardrail** (`apis/agent_pay.py`, module `AgentPay`). It is an
  ordered, first-match-wins policy. A spending limit over 500 is denied with
  `LIMIT_EXCEEDED`. Otherwise a category whose lower-case form is gambling,
  casino, betting or crypto is denied with `GOVERNANCE_VIOLATION`. Everything
  else is authorised, and the merchant category is echoed back. A raised
  `APIException` is the `Denied` branch of a `Verdict`.
- **The earlier guardrail** (`main.py`, module `PrototypeApp`). It has the limit rule
  only. A successful call returns a `MA-CONSENT-` token, an expiry one hour
  ahead and a constraints record. Module `GuardrailVariants` proves that the
  two endpoints agree on the limit rule. It also proves that they differ
  exactly on prohibited categories within the limit.
- **The carbon estimator** (`apis/carbon_impact.py`, module `CarbonImpact`). It looks
  up the MCC (merchant category code) in the static factor table, falling
  back to General Retail at 0.15. It multiplies by the amount, rounds to
  hundredths of a kilogram and writes the insight sentence.
- **The structured error** (`errors.py`, module `Errors`). It holds the four error codes
  and the `APIException` defaults: status 400, and a missing `details` stored
  as `{}`. The handler method builds the body and adds `details` in place only
  when it is non-empty. It is proved equal to the function `ErrorResponse`,
  and `DecodeErrorResponse` reads the exception back from that response.

Helper modules: `Wrappers` (an `Option` type for Python's `None`), `Ascii`
(the case mapping of `str.lower()` and `str.upper()`), and `Decimal` (writing
and reading digit strings).

Representation choices:
- Amounts and limits are `real`, exact rationals.
- Carbon factors are integer hundredths of a kilogram of CO2 per unit spent,
  so 2.10 is 210. The footprint in hundredths of a kilogram is then
  `amount * factor`, rounded to the nearest integer with ties to even, as
  Python's `round` does. The pinned values 6.0, 105.0 and 15.0 come out exactly.
- The table and the prohibited list are `const`, and the guardrails and the
  estimator are functions. A lookup therefore cannot change the table, and
  repeated identical calls give identical results. The error handler, which
  updates its response dictionary in place, is a method.
- The request models' field constraints are preconditions: `WellFormed` in
  `AgentPay` and in `CarbonImpact`. `main.py`'s request model has none, so
  `PrototypeApp` has none either.
- `uuid.uuid4().hex` and `datetime.now()` are parameters of
  `PrototypeApp.AuthorizeAgent`. They are a string of 32 lower-case hex digits
  and a time in microseconds.
- `apis/agent_pay.py:70` returns the fixed literal `consent_tkn_2026_x99` as
  the consent id of every authorisation, and the model does the same
  (`AgentPay.ConsentIdIsFixed`). A consent id unique to each call is not
  modelled.
- `str.lower()` is modelled on ASCII letters only. For membership in the
  prohibited list this gives the same answer as Python. The only non-ASCII
  character whose full lower-case form is all ASCII is the Kelvin sign,
  which lower-cases to `k`, and no prohibited word contains `k`.

## Model

| member | source | states |
|---|---|---|
| Ascii.Lower | apis/agent_pay.py:59 | `lower()` keeps the length and leaves no upper-case letter |
| Ascii.Upper | main.py:30 | `upper()` keeps the length and leaves no lower-case letter |
| Ascii.LowerCharEqual | apis/agent_pay.py:59 | two characters lower-case alike iff they are equal or the same letter in the two cases |
| Ascii.LowerEqualIff | apis/agent_pay.py:59 | comparing lower-cased strings is exactly case-insensitive comparison, position by position (both directions) |
| Ascii.UpperHexRoundTrip | main.py:30 | upper-casing lower-case hex digits gives upper-case hex digits, and lower-casing gives the input back |
| Decimal.NatToDecimal | apis/carbon_impact.py:68 | the integer part is written as at least one digit, with no leading zero unless it is 0 |
| Decimal.DecimalRoundTrip | apis/carbon_impact.py:68 | reading back a written integer gives the integer |
| Errors.ErrorCodesDistinct | errors.py:6-11 | there are four error codes and no two are the same string |
| Errors.NewAPIException | errors.py:14-26 | code, message and status are stored unchanged; `details=None` is stored as the empty map, a given map as itself |
| Errors.NewAPIExceptionDefaults | errors.py:20-26 | with status and details omitted, the status is 400 and the details are empty |
| Errors.ErrorResponse | errors.py:33-46 | response status is the exception's status; the body is `{"error": …}` with the code and message verbatim; it has `details` iff the details are non-empty, and then they are verbatim |
| Errors.HandleAPIException | errors.py:33-46 | building the body and adding `details` in place gives exactly `ErrorResponse` |
| Errors.ErrorResponseRoundTrip | errors.py:33-46 | code, message, status and details can all be read back from the response, so the handler alters nothing |
| AgentPay.NewAgentAuthRequest | apis/agent_pay.py:8-13 | the fields are stored as given; `currency` is "USD" when omitted |
| AgentPay.AuthorizeAgent | apis/agent_pay.py:48-73 | LIMIT_EXCEEDED iff limit > 500; GOVERNANCE_VIOLATION iff limit ≤ 500 and the category is prohibited; authorised iff neither; every denial has status 403; success has status "Authorized", echoes the category, and carries the fixed consent id and message |
| AgentPay.LimitDenial | apis/agent_pay.py:49-55 | over 500, whatever the category: LIMIT_EXCEEDED, the MFA message, 403, details {max_allowed: 500, requested: limit} |
| AgentPay.GovernanceDenial | apis/agent_pay.py:58-65 | within the limit, a prohibited category is denied with GOVERNANCE_VIOLATION and 403; message and details carry the category as sent, not lower-cased |
| AgentPay.ProhibitedIffCaseVariant | apis/agent_pay.py:58-59 | a category is prohibited iff it equals a listed word up to letter case (whole string, same length) |
| AgentPay.ConsentIdIsFixed | apis/agent_pay.py:68-73 | every authorisation carries the same literal consent id |
| AgentPay.OnlyLimitAndCategoryDecide | apis/agent_pay.py:48-73 | requests with the same limit and category get the same verdict, whatever the agent id and currency |
| AgentPay.DenialResponse | apis/agent_pay.py:49-65 | the exception handler, once registered, answers any denial with status 403 and its details in the body |
| AgentPay.ExamplesAuthorized | apis/agent_pay.py:68-73 | 250 "restaurants" is authorised with that category echoed; a limit of exactly 500 passes |
| AgentPay.ExamplesDenied | apis/agent_pay.py:49-65 | 600 "restaurants" gives LIMIT_EXCEEDED with {500, 600}; 600 "casino" gives LIMIT_EXCEEDED; 100 "Casino" gives GOVERNANCE_VIOLATION with "Casino" in the details |
| AgentPay.ExamplesNotProhibited | apis/agent_pay.py:58-59 | "crypto-exchange", "online gambling" and " casino" are not prohibited |
| CarbonImpact.LookupCategory | apis/carbon_impact.py:59 | the entry is the table's for a listed code and General Retail otherwise; every factor is positive |
| CarbonImpact.KnownCategories | apis/carbon_impact.py:9-14 | 4511 Airlines 0.85, 5411 Grocery Stores 0.12, 5541 Gas Stations 2.10, 5812 Restaurants 0.25, and 9999 General Retail 0.15 |
| CarbonImpact.RoundHalfEven | apis/carbon_impact.py:62 | the result is within 1/2 of the input, and even when the input is exactly halfway |
| CarbonImpact.RoundHalfEvenUnique | apis/carbon_impact.py:62 | those two properties determine the rounded value |
| CarbonImpact.RoundHalfEvenMonotone | apis/carbon_impact.py:62 | rounding preserves order |
| CarbonImpact.FootprintHundredths | apis/carbon_impact.py:62 | the footprint in hundredths of a kg is a natural number within 1/2 of amount × factor |
| CarbonImpact.FormatKg | apis/carbon_impact.py:68 | `str()` of the rounded footprint in its shortest form: no leading zero before a non-zero integer part; the point is followed by one digit iff the footprint is a whole number of tenths, and that digit is "0" iff it is a whole number of kg; otherwise two digits |
| CarbonImpact.FormatKgRoundTrip | apis/carbon_impact.py:68 | the written footprint reads back as the footprint, so distinct footprints print differently |
| CarbonImpact.EnrichTransaction | apis/carbon_impact.py:37-69 | the description passes through unchanged; the category name is the looked-up one; the kg value is the rounded footprint / 100; the insight is the fixed sentence around that footprint |
| CarbonImpact.EnrichFootprintNearest | apis/carbon_impact.py:62 | the reported kg are within 0.005 of amount × factor, and never negative |
| CarbonImpact.FootprintMonotone | apis/carbon_impact.py:62 | for a fixed factor, a larger amount never gives a smaller footprint |
| CarbonImpact.EnrichMonotone | apis/carbon_impact.py:59-62 | for a fixed MCC, a larger amount never gives a smaller reported footprint |
| CarbonImpact.ExampleFootprints | apis/carbon_impact.py:62 | 50 × 0.12 = 6.00, 50 × 2.10 = 105.00, 100 × 0.15 = 15.00 exactly |
| CarbonImpact.ExampleFormats | apis/carbon_impact.py:68 | footprints print as "6.0", "105.0", "12.34", "12.3" |
| CarbonImpact.ExampleGroceries | scripts/generate_api_demo_gif.py:55-67 | 5411, 50.00, "Weekly groceries" gives Grocery Stores and 6.0 kg |
| CarbonImpact.ExampleFuel | scripts/generate_api_demo_gif.py:68-81 | 5541, 50.00, "Fuel purchase" gives Gas Stations and 105.0 kg |
| CarbonImpact.ExampleFallback | apis/carbon_impact.py:59-62 | an unlisted code, 9999 with 100.00, gives General Retail and 15.0 kg |
| PrototypeApp.NewAgentAuthRequest | main.py:9-13 | the fields are stored as given; `currency` is "USD" when omitted |
| PrototypeApp.ConsentToken | main.py:30 | the token is 23 characters: "MA-CONSENT-" then 12 upper-case hex digits, which lower-case back to the first 12 digits of the UUID |
| PrototypeApp.AuthorizeAgent | main.py:19-41 | rejected (403, the MFA detail) iff limit > 500; otherwise "Authorized", the token, expiry now + 1 hour, and constraints echoing limit, currency and category |
| PrototypeApp.NoCategoryRule | main.py:20-41 | within the limit every category is authorised and echoed |
| PrototypeApp.ConsentTokenInjective | main.py:30 | UUIDs whose first 12 hex digits differ give different tokens |
| PrototypeApp.ConsentTokenUsesPrefixOnly | main.py:30 | UUIDs that agree on their first 12 hex digits give the same token |
| PrototypeApp.ExampleCasino | main.py:20-41 | 100 "casino" is authorised, with currency "USD" by default |
| GuardrailVariants.LimitRuleAgrees | apis/agent_pay.py:49 | the current endpoint reports LIMIT_EXCEEDED exactly when the earlier one rejects |
| GuardrailVariants.CategoryRuleDiffers | apis/agent_pay.py:58-65 | the current endpoint denies while the earlier one authorises iff the limit is ≤ 500 and the category is prohibited; whatever the current one authorises, the earlier one does too |

## Left out

- Handler registration. `register_exception_handlers` (errors.py:29-46) is never called in `gateway.py` or `main.py`, so in the gateway as written a raised `APIException` does not reach `api_exception_handler` and the framework answers with a generic 500 error. The model gives the handler's answer, as if it were registered; the framework's fallback is not modelled.
- FastAPI and pydantic machinery: routers, decorators, `async`, the JSON encoding of responses, and `gateway.py`'s router mounting and both `root` greetings. None of these makes a decision.
- Binary floating point. Amounts and limits are exact rationals, and Python rounds the binary product instead. Near a rounding tie the two can differ: amount 0.125 at MCC 5411 gives the exact product 0.015, which the model rounds to 0.02; the binary product is 0.01499999999999999944…, which Python rounds to 0.01.
- Non-finite floats. pydantic accepts `inf` for a `gt=0` float field, and the model's `real` has no such value. `main.py`'s `spending_limit` has no constraint at all: a NaN or `-inf` limit fails `> 500` there and is authorised with that value echoed as `max_amount`; `PrototypeApp` cannot represent these limits.
- `PrototypeApp.AuthorizeAgent`: `uuid.uuid4()` and `datetime.now()` are parameters. The randomness, and so the uniqueness of tokens across calls, is not modelled; only `ConsentTokenInjective` says UUIDs whose first 12 hex digits differ give distinct tokens, and `ConsentTokenUsesPrefixOnly` that UUIDs sharing those digits give the same one.
- CarbonImpact.FormatKg: always writes fixed notation. Python's `str()` switches to exponent form from 1e16 kg, and loses exactness well before that.
- The MCC pattern `^\d{4}$` also accepts non-ASCII decimal digits. The model's precondition admits ASCII digits only. Such a code is never in the table, so it would fall back to General Retail.
- `str.lower()` and `str.upper()` on non-ASCII letters. This changes no verdict, as explained above, and the category is echoed unchanged.
- `scripts/generate_api_demo_gif.py` and `scripts/generate_demo_gif.py` render images. Only their request/response pairs are used, as the expected values of the example lemmas.
- The demo script's "insight" texts (good/bad impact) are the script's own and not the endpoint's. The model keeps the endpoint's sentence.
