/**
 * The InferenceEngine of OsAI/inference.engine.ts: answers every request with a mock success
 * that echoes the request's prompt or inputs.
 *
 * The random id it falls back on is a parameter.
 */
module Inference {
  import opened Common
  import opened AiTypes

  /** An emitted event: 'inference.started' with the request, 'inference.completed' with the response. */
  datatype EngineEvent = InferenceStarted(req: Request) | InferenceCompleted(res: Response)

  /** `req.prompt ?? req.inputs ?? null`: an empty prompt still counts as present. */
  function EchoOf(req: Request): (e: Echo)
    ensures req.prompt.Some? ==> e == EchoPrompt(req.prompt.value)
    ensures req.prompt.None? && req.inputs.Some? ==> e == EchoInputs(req.inputs.value)
    ensures req.prompt.None? && req.inputs.None? ==> e == EchoNull
  {
    match req.prompt
    case Some(p) => EchoPrompt(p)
    case None => if req.inputs.Some? then EchoInputs(req.inputs.value) else EchoNull
  }

  /**
   * The response `run(req)` returns: the request's id unless it is empty, the request's model,
   * the echo, and always kind 'success', confidence 1 and metadata {simulated: true}.
   */
  function EngineResponse(req: Request, freshId: string, now: int): (r: Response)
    ensures r.id == (if req.id != "" then req.id else freshId) && r.modelId == req.modelId
    ensures r.output == Some(EchoOf(req))
    ensures r.kind == Some(SuccessKind) && r.confidence == Some(1)
    ensures r.metadata == Some(map["simulated" := VBool(true)])
    ensures r.message == Some("Mock Inference Response Simulated") && r.generatedAt == Some(now)
  {
    Response(OrElse(Some(req.id), freshId), req.modelId, Some(EchoOf(req)), Some(1), Some(SuccessKind),
             Some("Mock Inference Response Simulated"), Some(now), Some(map["simulated" := VBool(true)]))
  }

  class InferenceEngine {
    /** The events emitted, oldest first. */
    var emitted: seq<EngineEvent>

    constructor ()
      ensures emitted == []
    {
      emitted := [];
    }

    /** `run(req)`: emits 'inference.started', builds the mock response, emits 'inference.completed' and returns it. */
    method Run(req: Request, freshId: string, now: int) returns (r: Response)
      modifies this
      ensures r == EngineResponse(req, freshId, now)
      ensures emitted == old(emitted) + [InferenceStarted(req), InferenceCompleted(r)]
    {
      emitted := emitted + [InferenceStarted(req)];
      var echo := if req.prompt.Some? then EchoPrompt(req.prompt.value)
                  else if req.inputs.Some? then EchoInputs(req.inputs.value) else EchoNull;
      r := Response(if req.id != "" then req.id else freshId, req.modelId, Some(echo), Some(1), Some(SuccessKind),
                    Some("Mock Inference Response Simulated"), Some(now), Some(map["simulated" := VBool(true)]));
      emitted := emitted + [InferenceCompleted(r)];
    }
  }
}
