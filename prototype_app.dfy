/**
 * The earlier authorisation endpoint: one limit rule, no category rule, and a
 * consent token made from a random UUID, valid for one hour.
 *
 * The UUID's hexadecimal form and the current time come from outside and
 * are parameters here.
 */
module PrototypeApp {
  import Ascii

  const LIMIT: real := 500.0
  const TOKEN_PREFIX: string := "MA-CONSENT-"
  const LIMIT_DETAIL: string := "Limit Exceeded: Transactions over $500 require human MFA."

  /** One hour, in microseconds (the resolution of a `datetime`). */
  const ONE_HOUR: int := 3600 * 1000000

  /** The request model: no field constraints at all. */
  datatype AgentAuthRequest = AgentAuthRequest(
    agentId: string,
    spendingLimit: real,
    currency: string,
    merchantCategory: string)

  /** Building the request: `currency` is "USD" when it is left out. */
  function NewAgentAuthRequest(agentId: string, spendingLimit: real, merchantCategory: string,
                               currency: string := "USD"): (req: AgentAuthRequest)
    ensures req.agentId == agentId && req.spendingLimit == spendingLimit
    ensures req.merchantCategory == merchantCategory && req.currency == currency
  {
    AgentAuthRequest(agentId, spendingLimit, currency, merchantCategory)
  }

  datatype Constraints = Constraints(maxAmount: real, currency: string, allowedMerchantCat: string)

  /**
   * The endpoint's outcome: the success body (the expiry is a point in time
   * in microseconds), or the `HTTPException` it raises.
   */
  datatype Outcome =
    | Authorized(status: string, consentToken: string, expiresAt: int, constraints: Constraints)
    | Rejected(statusCode: int, detail: string)

  /** What `uuid.uuid4().hex` gives: 32 lower-case hexadecimal digits. */
  predicate IsUuidHex(hex: string)
  {
    |hex| == 32 && forall i :: 0 <= i < |hex| ==> Ascii.IsLowerHexDigit(hex[i])
  }

  /**
   * `f"MA-CONSENT-{hex[:12].upper()}"`: 23 characters, the prefix, then
   * twelve upper-case hexadecimal digits from which the first twelve digits
   * of the UUID can be read back.
   */
  function ConsentToken(hex: string): (token: string)
    requires IsUuidHex(hex)
    ensures |token| == 23 && token[..11] == TOKEN_PREFIX
    ensures forall i :: 11 <= i < 23 ==> Ascii.IsUpperHexDigit(token[i])
    ensures Ascii.Lower(token[11..]) == hex[..12]
  {
    Ascii.UpperHexRoundTrip(hex[..12]);
    var token := TOKEN_PREFIX + Ascii.Upper(hex[..12]);
    assert token[11..] == Ascii.Upper(hex[..12]);
    token
  }

  /**
   * `authorize_agent`: rejected with 403 exactly when the limit is over 500;
   * otherwise authorised with a token from the UUID, an expiry one hour
   * from now, and constraints that echo the request.
   */
  function AuthorizeAgent(req: AgentAuthRequest, hex: string, now: int): (o: Outcome)
    requires IsUuidHex(hex)
    ensures o.Rejected? <==> req.spendingLimit > 500.0
    ensures o.Rejected? ==> o.statusCode == 403 && o.detail == LIMIT_DETAIL
    ensures o.Authorized? ==>
      && o.status == "Authorized"
      && o.consentToken == ConsentToken(hex)
      && o.expiresAt == now + ONE_HOUR
      && o.constraints.maxAmount == req.spendingLimit
      && o.constraints.currency == req.currency
      && o.constraints.allowedMerchantCat == req.merchantCategory
  {
    if req.spendingLimit > LIMIT then
      Rejected(403, LIMIT_DETAIL)
    else
      var token := ConsentToken(hex);
      Authorized("Authorized", token, now + ONE_HOUR,
                 Constraints(req.spendingLimit, req.currency, req.merchantCategory))
  }

  /** No category is refused: within the limit even "casino" is authorised. */
  lemma NoCategoryRule(req: AgentAuthRequest, hex: string, now: int)
    requires IsUuidHex(hex) && req.spendingLimit <= 500.0
    ensures AuthorizeAgent(req, hex, now).Authorized?
    ensures AuthorizeAgent(req, hex, now).constraints.allowedMerchantCat == req.merchantCategory
  {
  }

  /** Two UUIDs whose first 12 hex digits differ give two different tokens. */
  lemma ConsentTokenInjective(hex1: string, hex2: string)
    requires IsUuidHex(hex1) && IsUuidHex(hex2) && hex1[..12] != hex2[..12]
    ensures ConsentToken(hex1) != ConsentToken(hex2)
  {
  }

  /** The token depends on the first 12 hex digits of the UUID only. */
  lemma ConsentTokenUsesPrefixOnly(hex1: string, hex2: string)
    requires IsUuidHex(hex1) && IsUuidHex(hex2) && hex1[..12] == hex2[..12]
    ensures ConsentToken(hex1) == ConsentToken(hex2)
  {
  }

  lemma ExampleCasino(hex: string, now: int)
    requires IsUuidHex(hex)
    ensures var o := AuthorizeAgent(NewAgentAuthRequest("agent_demo", 100.0, "casino"), hex, now);
      o.Authorized? && o.constraints == Constraints(100.0, "USD", "casino")
  {
  }
}
