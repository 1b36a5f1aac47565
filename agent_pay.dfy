/**
 * The agent spending guardrail: an ordered, first-match-wins policy that
 * denies a request over the automated limit, then a request for a
 * prohibited merchant category, and authorises everything else.
 */
module AgentPay {
  import opened Wrappers
  import opened Errors
  import Ascii

  /** The largest spending limit that is approved without a human step-up. */
  const MAX_AUTOMATED_LIMIT: real := 500.0

  /** Merchant categories an agent may never be authorised for (lower case). */
  const PROHIBITED_CATEGORIES: seq<string> := ["gambling", "casino", "betting", "crypto"]

  /** The consent id every successful authorisation carries. */
  const CONSENT_ID: string := "consent_tkn_2026_x99"

  const LIMIT_MESSAGE: string := "Limit Exceeded: Transactions over $500 require human MFA step-up."
  const AUTHORIZED_MESSAGE: string := "AI Agent authorized within defined guardrails."

  datatype AgentAuthRequest = AgentAuthRequest(
    agentId: string,
    spendingLimit: real,
    currency: string,
    merchantCategory: string)

  /** The request model's field constraints: non-empty ids, a positive limit. */
  predicate WellFormed(req: AgentAuthRequest)
  {
    |req.agentId| >= 1 && req.spendingLimit > 0.0 && |req.merchantCategory| >= 1
  }

  /** Building the request: `currency` is "USD" when it is left out. */
  function NewAgentAuthRequest(agentId: string, spendingLimit: real, merchantCategory: string,
                               currency: string := "USD"): (req: AgentAuthRequest)
    ensures req.agentId == agentId && req.spendingLimit == spendingLimit
    ensures req.merchantCategory == merchantCategory && req.currency == currency
  {
    AgentAuthRequest(agentId, spendingLimit, currency, merchantCategory)
  }

  /** The success body. */
  datatype Authorization = Authorization(
    status: string,
    consentId: string,
    merchantConstraints: string,
    message: string)

  /** What `authorize_agent` does: return the success body, or raise. */
  datatype Verdict = Authorized(grant: Authorization) | Denied(error: APIException)

  /** Whole-string membership of the lower-cased category in the prohibited list. */
  predicate IsProhibited(category: string)
  {
    Ascii.Lower(category) in PROHIBITED_CATEGORIES
  }

  function LimitDetails(req: AgentAuthRequest): Details
  {
    map["max_allowed" := JInt(500), "requested" := JNum(req.spendingLimit)]
  }

  function GovernanceMessage(category: string): string
  {
    "Governance Violation: AI Agents are prohibited from " + category + "."
  }

  /**
   * `authorize_agent`. The limit rule is checked first, so a request that
   * breaks both rules reports LIMIT_EXCEEDED; a limit of exactly 500 passes.
   */
  function AuthorizeAgent(req: AgentAuthRequest): (v: Verdict)
    requires WellFormed(req)
    ensures (v.Denied? && v.error.code == LIMIT_EXCEEDED) <==> req.spendingLimit > 500.0
    ensures (v.Denied? && v.error.code == GOVERNANCE_VIOLATION)
            <==> req.spendingLimit <= 500.0 && IsProhibited(req.merchantCategory)
    ensures v.Authorized? <==> req.spendingLimit <= 500.0 && !IsProhibited(req.merchantCategory)
    ensures v.Denied? ==> v.error.statusCode == 403
    ensures v.Authorized? ==> v.grant.status == "Authorized" && v.grant.merchantConstraints == req.merchantCategory
    ensures v.Authorized? ==> v.grant.consentId == CONSENT_ID && v.grant.message == AUTHORIZED_MESSAGE
  {
    if req.spendingLimit > MAX_AUTOMATED_LIMIT then
      Denied(NewAPIException(
        code := LIMIT_EXCEEDED,
        message := LIMIT_MESSAGE,
        statusCode := 403,
        details := Some(LimitDetails(req))))
    else if IsProhibited(req.merchantCategory) then
      Denied(NewAPIException(
        code := GOVERNANCE_VIOLATION,
        message := GovernanceMessage(req.merchantCategory),
        statusCode := 403,
        details := Some(map["prohibited_category" := JStr(req.merchantCategory)])))
    else
      Authorized(Authorization("Authorized", CONSENT_ID, req.merchantCategory, AUTHORIZED_MESSAGE))
  }

  /**
   * Any limit over 500 is denied with LIMIT_EXCEEDED, status 403 and details
   * {max_allowed: 500, requested: limit}, whatever the category.
   */
  lemma LimitDenial(req: AgentAuthRequest)
    requires WellFormed(req) && req.spendingLimit > 500.0
    ensures AuthorizeAgent(req) == Denied(APIException(LIMIT_EXCEEDED, LIMIT_MESSAGE, 403, LimitDetails(req)))
  {
  }

  /**
   * Under the limit, a prohibited category is denied with GOVERNANCE_VIOLATION;
   * the details and the message carry the category exactly as it was sent.
   */
  lemma GovernanceDenial(req: AgentAuthRequest)
    requires WellFormed(req) && req.spendingLimit <= 500.0 && IsProhibited(req.merchantCategory)
    ensures AuthorizeAgent(req) == Denied(APIException(
              GOVERNANCE_VIOLATION, GovernanceMessage(req.merchantCategory), 403,
              map["prohibited_category" := JStr(req.merchantCategory)]))
  {
  }

  /**
   * A category is prohibited exactly when it is one of the listed words up
   * to the case of its letters; a longer string containing one is not.
   */
  lemma ProhibitedIffCaseVariant(category: string)
    ensures IsProhibited(category)
            <==> exists k :: 0 <= k < |PROHIBITED_CATEGORIES|
                   && Ascii.SameIgnoringCase(category, PROHIBITED_CATEGORIES[k])
  {
    forall k | 0 <= k < |PROHIBITED_CATEGORIES|
      ensures Ascii.Lower(category) == PROHIBITED_CATEGORIES[k]
              <==> Ascii.SameIgnoringCase(category, PROHIBITED_CATEGORIES[k])
    {
      var w := PROHIBITED_CATEGORIES[k];
      assert Ascii.Lower(w) == w;
      Ascii.LowerEqualIff(category, w);
    }
  }

  /** Every successful authorisation carries the same fixed consent id. */
  lemma ConsentIdIsFixed(req: AgentAuthRequest)
    requires WellFormed(req) && AuthorizeAgent(req).Authorized?
    ensures AuthorizeAgent(req).grant.consentId == CONSENT_ID
  {
  }

  /** The verdict depends on the limit and the category only, not on agent id or currency. */
  lemma OnlyLimitAndCategoryDecide(a: AgentAuthRequest, b: AgentAuthRequest)
    requires WellFormed(a) && WellFormed(b)
    requires a.spendingLimit == b.spendingLimit && a.merchantCategory == b.merchantCategory
    ensures AuthorizeAgent(a) == AuthorizeAgent(b)
  {
  }

  /**
   * The denial as the client sees it: status 403, and the details are always
   * in the body, because a denial's details are never empty.
   */
  lemma DenialResponse(req: AgentAuthRequest)
    requires WellFormed(req) && AuthorizeAgent(req).Denied?
    ensures var resp := ErrorResponse(AuthorizeAgent(req).error);
      && resp.statusCode == 403
      && resp.content.fields["error"].fields["details"] == JObject(AuthorizeAgent(req).error.details)
  {
  }

  // Concrete requests and their verdicts.

  lemma ExamplesAuthorized()
    ensures AuthorizeAgent(NewAgentAuthRequest("agent_ai_2026_001", 250.0, "restaurants"))
            == Authorized(Authorization("Authorized", "consent_tkn_2026_x99", "restaurants",
                                        "AI Agent authorized within defined guardrails."))
    ensures AuthorizeAgent(NewAgentAuthRequest("agent_demo", 500.0, "restaurants")).Authorized?
  {
    assert !IsProhibited("restaurants") by {
      assert |Ascii.Lower("restaurants")| == 11;
    }
  }

  lemma ExamplesDenied()
    ensures var v := AuthorizeAgent(NewAgentAuthRequest("agent_demo", 600.0, "restaurants"));
      v.Denied? && v.error.code == "LIMIT_EXCEEDED"
      && v.error.details == map["max_allowed" := JInt(500), "requested" := JNum(600.0)]
    ensures AuthorizeAgent(NewAgentAuthRequest("agent_demo_bad", 600.0, "casino")).error.code == "LIMIT_EXCEEDED"
    ensures var v := AuthorizeAgent(NewAgentAuthRequest("agent_demo", 100.0, "Casino"));
      v.Denied? && v.error.code == "GOVERNANCE_VIOLATION"
      && v.error.details == map["prohibited_category" := JStr("Casino")]
  {
    assert Ascii.Lower("Casino") == "casino";
  }

  lemma ExamplesNotProhibited()
    ensures !IsProhibited("crypto-exchange")
    ensures !IsProhibited("online gambling")
    ensures !IsProhibited(" casino")
  {
    assert |Ascii.Lower("crypto-exchange")| == 15;
    assert |Ascii.Lower("online gambling")| == 15;
    assert |Ascii.Lower(" casino")| == 7 && Ascii.Lower(" casino")[0] == ' ';
  }
}
