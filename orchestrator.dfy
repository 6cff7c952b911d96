/**
 * The OsAIOrchestrator of OsAI/ai.orchestrator.ts: composes a command bus, a context manager, an
 * inference engine, a model manager, a policy manager and a training manager, and gates every
 * inference request through the policy.
 *
 * As written, its constructor calls `new ContextManager()` with no argument, which throws; the
 * class is modelled as evidently intended, with that manager built from `{}` and the command
 * bus given its map. The event forwarding between the parts and the orchestrator is left out.
 */
module Orchestration {
  import opened Common
  import opened OrderedMap
  import opened AiTypes
  import opened ContextMgr
  import opened Inference
  import Commands
  import OsAiPolicy
  import OsAiModels
  import Training

  /** The response to a request the policy refuses: kind 'error' with the policy's reason. */
  function Rejection(req: Request, freshId: string, now: int, reason: Option<string>): (r: Response)
    ensures r.id == (if req.id != "" then req.id else freshId) && r.modelId == req.modelId
    ensures r.kind == Some(ErrorKind) && r.message == reason && r.generatedAt == Some(now)
    ensures r.output == None && r.confidence == None && r.metadata == None
  {
    Response(OrElse(Some(req.id), freshId), req.modelId, None, None, Some(ErrorKind), reason, Some(now), None)
  }

  /** The context after an allowed request: its prompt pushed when it has a non-empty one, unchanged otherwise. */
  function Recorded(c: Context, req: Request, now: int): Context {
    if Truthy(req.prompt) then Pushed(c, req.prompt.value, now) else c
  }

  class OsAIOrchestrator {
    const commandBus: Commands.CommandBus
    const context: ContextManager
    const engine: InferenceEngine
    const models: OsAiModels.ModelManager
    const policy: OsAiPolicy.PolicyManager
    const training: Training.TrainingManager

    ghost predicate Valid()
      reads this, commandBus, models, training
    {
      commandBus.Valid() && models.Valid() && training.Valid()
    }

    /**
     * The orchestrator as evidently intended: every part new, the context from defaults, the
     * policy the one given or the default one.
     */
    constructor (modelsDir: string, initialPolicy: Option<ExecutionPolicy>, sessionId: string, now: int)
      ensures Valid()
      ensures fresh(commandBus) && fresh(context) && fresh(engine) && fresh(models) && fresh(policy) && fresh(training)
      ensures commandBus.handlers == Some(Empty()) && commandBus.emitted == []
      ensures context.context == Defaults(sessionId, now) && engine.emitted == []
      ensures models.modelsDir == modelsDir && models.registry == Empty()
      ensures policy.policies == initialPolicy.GetOr(OsAiPolicy.DefaultPolicy) && training.jobs == Empty()
    {
      commandBus := new Commands.CommandBus.WithHandlerMap();
      var cm := NewContextManagerDefaulting(None, sessionId, now);
      context := cm;
      engine := new InferenceEngine();
      models := new OsAiModels.ModelManager(modelsDir);
      policy := new OsAiPolicy.PolicyManager(initialPolicy);
      training := new Training.TrainingManager();
    }

    /**
     * `runInference(req)`: a request the policy refuses gets an error response carrying the
     * policy's reason, and neither the context nor the engine sees it. An allowed request has its
     * prompt recorded in the context (when it has one) before the engine runs, and the engine's
     * response is returned unchanged.
     */
    method RunInference(req: Request, freshId: string, now: int) returns (r: Response)
      modifies context, engine
      ensures var check := OsAiPolicy.Check(policy.policies, req);
              !check.allowed ==>
                r == Rejection(req, freshId, now, check.reason) &&
                context.context == old(context.context) && context.emitted == old(context.emitted) &&
                engine.emitted == old(engine.emitted)
      ensures var check := OsAiPolicy.Check(policy.policies, req);
              check.allowed ==>
                r == EngineResponse(req, freshId, now) &&
                context.context == Recorded(old(context.context), req, now) &&
                context.emitted == old(context.emitted) + (if Truthy(req.prompt) then ["context.query"] else []) &&
                engine.emitted == old(engine.emitted) + [InferenceStarted(req), InferenceCompleted(r)]
    {
      var policyCheck := policy.IsAllowed(req);
      if !policyCheck.allowed {
        return Rejection(req, freshId, now, policyCheck.reason);
      }
      if req.prompt.Some? && req.prompt.value != "" {
        context.PushQuery(req.prompt.value, now);
      }
      r := engine.Run(req, freshId, now);
    }

    /** `executeCommand(target, action, payload)`: exactly what the bus's `exec` returns, throws and emits. */
    method ExecuteCommand(target: string, action: string, payload: Value, outcome: Result<Value>) returns (r: Result<Value>)
      requires commandBus.Valid()
      modifies commandBus`emitted, commandBus`invoked
      ensures r == Commands.ExecOutcome(commandBus.handlers, target, action, payload, outcome).0
      ensures commandBus.emitted == old(commandBus.emitted) + Commands.ExecOutcome(commandBus.handlers, target, action, payload, outcome).1
    {
      r := commandBus.Exec(target, action, payload, outcome);
    }

    /** `getContextSnapshot()`: the context manager's snapshot. */
    function GetContextSnapshot(): (c: Context)
      reads this, context
      ensures c == context.context
    {
      context.Snapshot()
    }

    /**
     * `installModel(payload)`: the model manager's install: the new package under the fresh id,
     * activated when the payload asks for it, with the manager's events.
     */
    method InstallModel(payload: InstallPayload, id: string, filename: string, now: int) returns (pkg: ModelPackage)
      requires models.Valid()
      modifies models
      ensures models.Valid()
      ensures var p := OsAiModels.NewPackage(payload, id, filename, models.modelsDir, now);
              pkg == (if payload.autoActivate == Some(true) then OsAiModels.WithActive(p, true, now) else p)
      ensures models.registry == old(models.registry).Set(id, pkg)
      ensures id !in old(models.registry.vals) ==> models.registry.keys == old(models.registry.keys) + [id]
      ensures models.emitted == old(models.emitted) +
                [OsAiModels.ModelEvent("model.installed", OsAiModels.NewPackage(payload, id, filename, models.modelsDir, now))] +
                if payload.autoActivate == Some(true) then [OsAiModels.ModelEvent("model.activated", pkg)] else []
    {
      pkg := models.Install(payload, id, filename, now);
    }
  }

  /**
   * `new OsAIOrchestrator(opts)` as written: the bus is built, then `new ContextManager()` throws
   * a TypeError because its `init` is undefined, so no orchestrator is ever returned.
   */
  method NewOrchestrator(modelsDir: string, initialPolicy: Option<ExecutionPolicy>, sessionId: string, now: int)
    returns (r: Result<OsAIOrchestrator>)
    ensures r == Err(TypeError)
  {
    var bus := new Commands.CommandBus();
    var made := NewContextManager(None, sessionId, now);
    r := Err(made.error);
  }

  /**
   * Under the default policy an online request is refused with the policy's reason and leaves the
   * query buffer empty, while an offline request with a prompt is echoed and its prompt recorded.
   */
  method DefaultPolicyGate(online: Request, offline: Request, prompt: string, sessionId: string, freshId: string, now: int)
    returns (refused: Response, answered: Response, queries: Option<seq<string>>)
    requires online.mode == Online && offline.mode == Offline && offline.prompt == Some(prompt) && prompt != ""
    ensures refused.kind == Some(ErrorKind) && refused.message == Some(OsAiPolicy.OnlineDenied)
    ensures answered.kind == Some(SuccessKind) && answered.output == Some(EchoPrompt(prompt))
    ensures queries == Some([prompt])
  {
    var o := new OsAIOrchestrator("/models", None, sessionId, now);
    refused := o.RunInference(online, freshId, now);
    assert o.context.context.recentQueries == Some([]);
    answered := o.RunInference(offline, freshId, now);
    assert Push([], prompt) == [prompt];
    queries := o.GetContextSnapshot().recentQueries;
  }
}
