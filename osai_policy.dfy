/**
 * The PolicyManager of OsAI/policy.manager.ts: one execution policy, merged by `setPolicy`,
 * consulted by `isAllowed` before an inference request runs.
 */
module OsAiPolicy {
  import opened Common
  import opened AiTypes

  /** The policy used when none is given: no internet, no model list. */
  const DefaultPolicy := ExecutionPolicy(Some(false), None, map[])

  const OnlineDenied := "Online execution disallowed by policy"
  const ModelDenied := "Model not allowed by policy"

  /** The model check's condition: a model list is set and the request names a model outside it. */
  predicate ModelRefused(p: ExecutionPolicy, req: Request) {
    p.allowedModels.Some? && Truthy(req.modelId) && req.modelId.value !in p.allowedModels.value
  }

  /**
   * `isAllowed(req)`: an online request is refused unless the internet is allowed, and that check
   * comes first; then a named model outside a set model list is refused; everything else passes
   * with no reason.
   */
  function Check(p: ExecutionPolicy, req: Request): (r: CheckResult)
    ensures r.allowed <==> !(req.mode == Online && p.allowInternet != Some(true)) && !ModelRefused(p, req)
    ensures r.allowed <==> r.reason.None?
    ensures req.mode == Online && p.allowInternet != Some(true) ==> r.reason == Some(OnlineDenied)
    ensures r.reason == Some(ModelDenied) <==> !(req.mode == Online && p.allowInternet != Some(true)) && ModelRefused(p, req)
  {
    if req.mode == Online && !(p.allowInternet == Some(true)) then
      CheckResult(false, Some(OnlineDenied))
    else if p.allowedModels.Some? && Truthy(req.modelId) && req.modelId.value !in p.allowedModels.value then
      CheckResult(false, Some(ModelDenied))
    else
      CheckResult(true, None)
  }

  /** `{...c, ...p}` on policies. */
  function Merge(c: ExecutionPolicy, p: ExecutionPolicy): ExecutionPolicy {
    ExecutionPolicy(PickOpt(p.allowInternet, c.allowInternet), PickOpt(p.allowedModels, c.allowedModels),
                    c.others + p.others)
  }

  /** Under the default policy exactly the requests that are not online are allowed. */
  lemma DefaultAllowsExactlyOffline(req: Request)
    ensures Check(DefaultPolicy, req).allowed <==> req.mode != Online
  {
  }

  /**
   * Merging a policy that says nothing about the internet or the model list leaves every
   * decision as it was; merging one that allows the internet and sets no list lets through
   * every online request the old policy's model list does not refuse.
   */
  lemma MergeAndDecisions(c: ExecutionPolicy, p: ExecutionPolicy, req: Request)
    ensures p.allowInternet.None? && p.allowedModels.None? ==> Check(Merge(c, p), req) == Check(c, req)
    ensures p.allowInternet == Some(true) && p.allowedModels.None? ==>
              (Check(Merge(c, p), req).allowed <==> !ModelRefused(c, req))
  {
  }

  class PolicyManager {
    var policies: ExecutionPolicy

    /** `new PolicyManager(initial)`: the given policy, or the default one. */
    constructor (initial: Option<ExecutionPolicy>)
      ensures policies == initial.GetOr(DefaultPolicy)
    {
      policies := if initial.Some? then initial.value else DefaultPolicy;
    }

    /** `setPolicy(p)`: p's keys replace the current ones, the others stay. */
    method SetPolicy(p: ExecutionPolicy)
      modifies this
      ensures policies == Merge(old(policies), p)
    {
      policies := Merge(policies, p);
    }

    /** `getPolicy()`: a copy of the current policy. */
    function GetPolicy(): (r: ExecutionPolicy)
      reads this
      ensures r == policies
    {
      policies
    }

    /** `isAllowed(req)` under the current policy. */
    function IsAllowed(req: Request): (r: CheckResult)
      reads this
      ensures r == Check(policies, req)
    {
      Check(policies, req)
    }
  }
}
