/**
 * The OsAI records the AI bookkeeping classes exchange: modes, inference requests and
 * responses, the runtime context, execution policies, model packages and training jobs.
 * Numbers that the source keeps as JavaScript numbers (timestamps, sizes, confidences) are
 * integers here.
 */
module AiTypes {
  import opened Common

  /** `OsAI.Mode`. */
  datatype Mode = Online | Offline | Hybrid

  /** `OsAI.Inference.InfReqKind`: 'success', 'partial', 'incomplete', 'error', 'canceled'. */
  datatype Kind = SuccessKind | PartialKind | IncompleteKind | ErrorKind | CanceledKind

  /** The fields of `OsAI.Inference.Request` the classes read. */
  datatype Request = Request(
    id: string,
    modelId: Option<string>,
    inputs: Option<Record>,
    prompt: Option<string>,
    kind: Kind,
    mode: Mode,
    metadata: Option<Record>)

  /** The `echo` of a mock response's output: the prompt, the inputs, or null. */
  datatype Echo = EchoPrompt(prompt: string) | EchoInputs(inputs: Record) | EchoNull

  /** `OsAI.Inference.Response`; `output` holds the one key the stubs set, `echo`. */
  datatype Response = Response(
    id: string,
    modelId: Option<string>,
    output: Option<Echo>,
    confidence: Option<int>,
    kind: Option<Kind>,
    message: Option<string>,
    generatedAt: Option<int>,
    metadata: Option<Record>)

  /** `OsAI.AwarenessLevel`. */
  datatype Awareness = Low | Medium | High | Critical

  /** `OsAI.Context`: the AI runtime context. */
  datatype Context = Context(
    sessionId: string,
    modelId: Option<string>,
    mode: Mode,
    userId: Option<string>,
    workspaceId: Option<string>,
    awarenessLevel: Option<Awareness>,
    recentQueries: Option<seq<string>>,
    memoryState: Option<Record>,
    focusTargets: Option<seq<string>>,
    activeProcesses: Option<seq<string>>,
    activeWindows: Option<seq<string>>,
    lastUpdated: Option<int>,
    metadata: Option<Record>)

  /** `Partial<OsAI.Context>`: None for a key the object does not have. */
  datatype ContextPatch = ContextPatch(
    sessionId: Option<string>,
    modelId: Option<string>,
    mode: Option<Mode>,
    userId: Option<string>,
    workspaceId: Option<string>,
    awarenessLevel: Option<Awareness>,
    recentQueries: Option<seq<string>>,
    memoryState: Option<Record>,
    focusTargets: Option<seq<string>>,
    activeProcesses: Option<seq<string>>,
    activeWindows: Option<seq<string>>,
    lastUpdated: Option<int>,
    metadata: Option<Record>)

  /** `{}`: a patch with no keys. */
  const NoPatch := ContextPatch(None, None, None, None, None, None, None, None, None, None, None, None, None)

  /** The value of one key after a spread: the patch's when it has the key, the base's otherwise. */
  function PickOpt<T>(p: Option<T>, c: Option<T>): Option<T> {
    if p.Some? then p else c
  }

  /** `{...c, ...p}` on contexts. */
  function Overlay(c: Context, p: ContextPatch): Context {
    Context(
      p.sessionId.GetOr(c.sessionId),
      PickOpt(p.modelId, c.modelId),
      p.mode.GetOr(c.mode),
      PickOpt(p.userId, c.userId),
      PickOpt(p.workspaceId, c.workspaceId),
      PickOpt(p.awarenessLevel, c.awarenessLevel),
      PickOpt(p.recentQueries, c.recentQueries),
      PickOpt(p.memoryState, c.memoryState),
      PickOpt(p.focusTargets, c.focusTargets),
      PickOpt(p.activeProcesses, c.activeProcesses),
      PickOpt(p.activeWindows, c.activeWindows),
      PickOpt(p.lastUpdated, c.lastUpdated),
      PickOpt(p.metadata, c.metadata))
  }

  /** `{...p, ...q}` on patches: the keys of both, q's value where both have one. */
  function Then(p: ContextPatch, q: ContextPatch): ContextPatch {
    ContextPatch(
      PickOpt(q.sessionId, p.sessionId),
      PickOpt(q.modelId, p.modelId),
      PickOpt(q.mode, p.mode),
      PickOpt(q.userId, p.userId),
      PickOpt(q.workspaceId, p.workspaceId),
      PickOpt(q.awarenessLevel, p.awarenessLevel),
      PickOpt(q.recentQueries, p.recentQueries),
      PickOpt(q.memoryState, p.memoryState),
      PickOpt(q.focusTargets, p.focusTargets),
      PickOpt(q.activeProcesses, p.activeProcesses),
      PickOpt(q.activeWindows, p.activeWindows),
      PickOpt(q.lastUpdated, p.lastUpdated),
      PickOpt(q.metadata, p.metadata))
  }

  /**
   * Spreading is a monoid action: the empty patch changes nothing, a patch applied twice acts
   * once, and two patches in a row act as their merge.
   */
  lemma OverlayLaws(c: Context, p: ContextPatch, q: ContextPatch)
    ensures Overlay(c, NoPatch) == c
    ensures Overlay(Overlay(c, p), p) == Overlay(c, p)
    ensures Overlay(Overlay(c, p), q) == Overlay(c, Then(p, q))
  {
  }

  /** `OsAI.Policy.ExecutionPolicy`, with the `allowedModels` list one manager reads; the flags no check consults are kept by name in `others`. */
  datatype ExecutionPolicy = ExecutionPolicy(
    allowInternet: Option<bool>,
    allowedModels: Option<seq<string>>,
    others: map<string, Value>)

  /** `OsAI.Policy.PolicyCheckResult`. */
  datatype CheckResult = CheckResult(allowed: bool, reason: Option<string>)

  /** `OsAI.Model.InstallPayload` (the workspace id is not read by any manager). */
  datatype InstallPayload = InstallPayload(
    id: string,
    name: Option<string>,
    sourceUrl: string,
    version: Option<string>,
    expectedChecksum: Option<string>,
    signature: Option<string>,
    sizeBytes: Option<int>,
    autoActivate: Option<bool>,
    metadata: Option<Record>)

  /** `OsAI.ModelPackage`. */
  datatype ModelPackage = ModelPackage(
    id: string,
    name: Option<string>,
    version: string,
    sourceUrl: string,
    installedPath: string,
    checksum: string,
    signature: string,
    sizeBytes: int,
    capabilities: seq<string>,
    downloadedAt: int,
    installedAt: int,
    lastUpdated: int,
    mode: Option<Mode>,
    metadata: Option<Record>)

  /** `OsAI.TrainJobStatus`. */
  datatype JobStatus = Queued | Running | Completed | Failed | Canceled

  /** `OsAI.TrainingJob`. */
  datatype TrainingJob = TrainingJob(
    id: string,
    modelId: string,
    datasetPath: string,
    status: JobStatus,
    startedAt: int,
    completedAt: Option<int>,
    metadata: Option<Record>)
}
