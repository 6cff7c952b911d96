/**
 * The PolicyManager of Ai/policy.manager.ts: one execution policy, replaced whole by
 * `setPolicy`, and a single internet rule.
 */
module AiPolicy {
  import opened Common
  import opened AiTypes
  import OsAiPolicy

  /** The policy a new manager holds: no internet. */
  const DefaultPolicy := ExecutionPolicy(Some(false), None, map[])

  const InternetDenied := "Internet not allowed"

  /**
   * `isAllowed(req)` as written: the request is refused exactly when the policy ALLOWS the
   * internet and the request is online; the reason then says the internet is not allowed.
   */
  function AsWrittenCheck(p: ExecutionPolicy, req: Request): (r: CheckResult)
    ensures !r.allowed <==> p.allowInternet == Some(true) && req.mode == Online
    ensures r.allowed <==> r.reason.None?
    ensures !r.allowed ==> r.reason == Some(InternetDenied)
  {
    if p.allowInternet == Some(true) && req.mode == Online then CheckResult(false, Some(InternetDenied))
    else CheckResult(true, None)
  }

  /** Under the default policy every request is allowed, online ones included. */
  lemma DefaultAllowsEverything(req: Request)
    ensures AsWrittenCheck(DefaultPolicy, req).allowed
  {
  }

  /**
   * The rule as written is inverted: a policy that allows the internet refuses an online request
   * with "Internet not allowed", and one that forbids it lets the request through.
   */
  lemma InternetRuleInverted(req: Request)
    requires req.mode == Online
    ensures AsWrittenCheck(ExecutionPolicy(Some(true), None, map[]), req) == CheckResult(false, Some(InternetDenied))
    ensures AsWrittenCheck(ExecutionPolicy(Some(false), None, map[]), req).allowed
  {
  }

  /** The rule as evidently intended: an online request is refused unless the internet is allowed. */
  function IntendedCheck(p: ExecutionPolicy, req: Request): (r: CheckResult)
    ensures !r.allowed <==> p.allowInternet != Some(true) && req.mode == Online
    ensures r.allowed <==> r.reason.None?
    ensures !r.allowed ==> r.reason == Some(InternetDenied)
  {
    if p.allowInternet != Some(true) && req.mode == Online then CheckResult(false, Some(InternetDenied))
    else CheckResult(true, None)
  }

  /**
   * The intended rule decides as the OsAI manager's internet check does: with no model list the
   * two managers allow and refuse the same requests.
   */
  lemma IntendedAgreesWithOsAi(p: ExecutionPolicy, req: Request)
    requires p.allowedModels.None?
    ensures IntendedCheck(p, req).allowed == OsAiPolicy.Check(p, req).allowed
  {
  }

  class PolicyManager {
    var policies: ExecutionPolicy

    constructor ()
      ensures policies == DefaultPolicy
    {
      policies := DefaultPolicy;
    }

    /** `setPolicy(policy)`: the new policy replaces the old one whole. */
    method SetPolicy(policy: ExecutionPolicy)
      modifies this
      ensures policies == policy
    {
      policies := policy;
    }

    /** `isAllowed(req)` under the current policy. */
    function IsAllowed(req: Request): (r: CheckResult)
      reads this
      ensures r == AsWrittenCheck(policies, req)
    {
      AsWrittenCheck(policies, req)
    }
  }
}
