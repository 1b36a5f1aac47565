/**
 * The two authorisation endpoints side by side: they agree on the limit
 * rule, and differ exactly on the prohibited categories.
 */
module GuardrailVariants {
  import AgentPay
  import PrototypeApp
  import Errors

  /** The same request, as the earlier endpoint receives it. */
  function AsPrototypeRequest(req: AgentPay.AgentAuthRequest): (p: PrototypeApp.AgentAuthRequest)
    ensures p.agentId == req.agentId && p.spendingLimit == req.spendingLimit
    ensures p.currency == req.currency && p.merchantCategory == req.merchantCategory
  {
    PrototypeApp.AgentAuthRequest(req.agentId, req.spendingLimit, req.currency, req.merchantCategory)
  }

  /** The current endpoint reports LIMIT_EXCEEDED exactly when the earlier one rejects. */
  lemma LimitRuleAgrees(req: AgentPay.AgentAuthRequest, hex: string, now: int)
    requires AgentPay.WellFormed(req) && PrototypeApp.IsUuidHex(hex)
    ensures var v := AgentPay.AuthorizeAgent(req);
      (v.Denied? && v.error.code == Errors.LIMIT_EXCEEDED)
      <==> PrototypeApp.AuthorizeAgent(AsPrototypeRequest(req), hex, now).Rejected?
  {
  }

  /**
   * The current endpoint denies while the earlier one authorises exactly
   * when the limit is within 500 and the category is prohibited; otherwise
   * the two agree on whether the request goes through.
   */
  lemma CategoryRuleDiffers(req: AgentPay.AgentAuthRequest, hex: string, now: int)
    requires AgentPay.WellFormed(req) && PrototypeApp.IsUuidHex(hex)
    ensures var v := AgentPay.AuthorizeAgent(req);
      var o := PrototypeApp.AuthorizeAgent(AsPrototypeRequest(req), hex, now);
      && (v.Denied? && o.Authorized?
          <==> req.spendingLimit <= 500.0 && AgentPay.IsProhibited(req.merchantCategory))
      && (v.Authorized? ==> o.Authorized?)
  {
  }
}
