/**
 * The Controlling class of OsAI/osai.controlling.ts: the mock OsAI controller. It keeps loaded
 * model packages by model id, a context, annotations by target and the insights produced so far.
 *
 * Fresh ids and `Date.now()` are parameters. Emitted events are kept as a log of names. The
 * suggestion list and the awareness timer fields are declared but never used, and are left out.
 */
module OsAiControlling {
  import opened Common
  import opened OrderedMap
  import opened AiTypes

  /** `OsAI.Annotation`. */
  datatype Annotation = Annotation(
    id: string,
    targetId: string,
    targetType: string,
    module_: Option<string>,
    severityScore: Option<int>,
    confidence: Option<int>,
    generatedAt: Option<int>,
    generatedBy: Option<string>,
    rootCause: Option<string>,
    metadata: Option<Record>)

  /** `Partial<OsAI.Annotation>`: None for a key the object does not have. */
  datatype AnnotationPatch = AnnotationPatch(
    id: Option<string>,
    targetId: Option<string>,
    targetType: Option<string>,
    module_: Option<string>,
    severityScore: Option<int>,
    confidence: Option<int>,
    generatedAt: Option<int>,
    generatedBy: Option<string>,
    rootCause: Option<string>,
    metadata: Option<Record>)

  /** `OsAI.Insight`, with the fields the controller sets. */
  datatype Insight = Insight(
    id: string,
    summary: string,
    confidence: int,
    generatedAt: int,
    impactLevel: string,
    generatedBy: string,
    category: string)

  /** `x || 0` for a number that may be undefined. */
  function NumOrZero(x: Option<int>): int {
    if x.Some? && x.value != 0 then x.value else 0
  }

  /** The annotation literal before `...data`: defaults chosen with `||`. */
  function Defaulted(targetId: string, data: AnnotationPatch, freshId: string, now: int): Annotation {
    Annotation(freshId, targetId, OrElse(data.targetType, "generic"), Some(OrElse(data.module_, "unknown")),
               Some(NumOrZero(data.severityScore)), Some(NumOrZero(data.confidence)), Some(now),
               Some(OrElse(data.generatedBy, "unknown")), None, None)
  }

  /** `{...a, ...data}`. */
  function SpreadAnnotation(a: Annotation, data: AnnotationPatch): Annotation {
    Annotation(data.id.GetOr(a.id), data.targetId.GetOr(a.targetId), data.targetType.GetOr(a.targetType),
               PickOpt(data.module_, a.module_), PickOpt(data.severityScore, a.severityScore),
               PickOpt(data.confidence, a.confidence), PickOpt(data.generatedAt, a.generatedAt),
               PickOpt(data.generatedBy, a.generatedBy), PickOpt(data.rootCause, a.rootCause),
               PickOpt(data.metadata, a.metadata))
  }

  /**
   * The annotation `annotate(targetId, data)` creates. Because `...data` comes last, every key
   * data has wins, including the id, the target id, and falsy values such as '' that the `||`
   * defaults had replaced; the defaults survive only for keys data lacks.
   */
  function NewAnnotation(targetId: string, data: AnnotationPatch, freshId: string, now: int): (a: Annotation)
    ensures a.id == data.id.GetOr(freshId) && a.targetId == data.targetId.GetOr(targetId)
    ensures a.targetType == data.targetType.GetOr("generic")
    ensures a.module_ == Some(data.module_.GetOr("unknown")) && a.generatedBy == Some(data.generatedBy.GetOr("unknown"))
    ensures a.severityScore == Some(data.severityScore.GetOr(0)) && a.confidence == Some(data.confidence.GetOr(0))
    ensures a.generatedAt == Some(data.generatedAt.GetOr(now))
    ensures a.rootCause == data.rootCause && a.metadata == data.metadata
  {
    SpreadAnnotation(Defaulted(targetId, data, freshId, now), data)
  }

  /** The insight `summaryInsights` creates. */
  function NewInsight(freshId: string, now: int): Insight {
    Insight(freshId, "System operating within normal parameters.", 1, now, "low", "unknown", "operational")
  }

  /** The package `loadModel(modelId)` stores: fixed placeholders derived from the model id. */
  function LoadedPackage(modelId: string, now: int): (pkg: ModelPackage)
    ensures pkg.id == modelId && pkg.version == "0.0.1" && pkg.capabilities == ["infer", "analyze", "train"]
    ensures pkg.sourceUrl == "file://models/" + modelId && pkg.installedPath == "/models/" + modelId
    ensures pkg.checksum == pkg.signature == "1234567890" && pkg.sizeBytes == 0 && pkg.mode == Some(Hybrid)
    ensures pkg.downloadedAt == pkg.installedAt == pkg.lastUpdated == now
    ensures pkg.name == None && pkg.metadata == None
  {
    ModelPackage(modelId, None, "0.0.1", "file://models/" + modelId, "/models/" + modelId, "1234567890", "1234567890",
                 0, ["infer", "analyze", "train"], now, now, now, Some(Hybrid), None)
  }

  /** The response `infer(req)` returns for a request it accepts. */
  function MockResponse(req: Request, freshId: string, now: int): (r: Response)
    ensures r.id == (if req.id != "" then req.id else freshId) && r.modelId == req.modelId
    ensures r.kind == Some(SuccessKind) && r.confidence == Some(1) && r.output == None
    ensures r.metadata.Some? && "simulated" in r.metadata.value && r.metadata.value["simulated"] == VBool(true)
    ensures forall k :: k != "simulated" ==> (k in r.metadata.value <==> req.metadata.Some? && k in req.metadata.value)
    ensures forall k :: k != "simulated" && k in r.metadata.value ==> r.metadata.value[k] == req.metadata.value[k]
  {
    Response(OrElse(Some(req.id), freshId), req.modelId, None, Some(1), Some(SuccessKind), Some("Mock Inference Response"),
             Some(now), Some(req.metadata.GetOr(map[])["simulated" := VBool(true)]))
  }

  class Controlling {
    var models: OMap<string, ModelPackage>
    var context: Context
    var annotations: OMap<string, seq<Annotation>>
    var insights: seq<Insight>
    /** The names of the events emitted, oldest first. */
    var emitted: seq<string>

    ghost predicate Valid()
      reads this
    {
      models.Valid() && annotations.Valid()
    }

    /** `new Controlling()`: a hybrid, medium-awareness context with no query buffer yet. */
    constructor (sessionId: string, now: int)
      ensures Valid() && models == Empty() && annotations == Empty() && insights == [] && emitted == []
      ensures context == Context(sessionId, None, Hybrid, None, None, Some(Medium), None, Some(map[]), Some([]),
                                 None, None, Some(now), Some(map[]))
    {
      models := Empty();
      annotations := Empty();
      insights := [];
      emitted := [];
      context := Context(sessionId, None, Hybrid, None, None, Some(Medium), None, Some(map[]), Some([]),
                         None, None, Some(now), Some(map[]));
    }

    /** `loadModel(modelId)`: stores (or replaces) the placeholder package under the model id. */
    method LoadModel(modelId: string, now: int) returns (pkg: ModelPackage)
      requires Valid()
      modifies this`models, this`emitted
      ensures Valid()
      ensures pkg == LoadedPackage(modelId, now) && models == old(models).Set(modelId, pkg)
      ensures emitted == old(emitted) + ["model.loaded"]
    {
      pkg := LoadedPackage(modelId, now);
      models := models.Set(modelId, pkg);
      emitted := emitted + ["model.loaded"];
    }

    /** `unloadModel(modelId)`: deletes the entry, if any, and emits 'model.unloaded' in every case. */
    method UnloadModel(modelId: string)
      requires Valid()
      modifies this`models, this`emitted
      ensures Valid()
      ensures models == old(models).Delete(modelId)
      ensures emitted == old(emitted) + ["model.unloaded"]
    {
      models := models.Delete(modelId);
      emitted := emitted + ["model.unloaded"];
    }

    /**
     * `infer(req)`: a request naming a model that is not loaded throws "Model not loaded<id>"
     * and changes nothing. Any other request gets the mock response, and its prompt (or
     * 'unknown' when the prompt is empty or absent) is appended to the query buffer, which has
     * no bound here.
     */
    method Infer(req: Request, freshId: string, now: int) returns (r: Result<Response>)
      requires Valid()
      modifies this`context, this`emitted
      ensures Truthy(req.modelId) && !models.Has(req.modelId.value) ==>
                r == Err(Thrown("Model not loaded" + req.modelId.value)) &&
                context == old(context) && emitted == old(emitted)
      ensures !(Truthy(req.modelId) && !models.Has(req.modelId.value)) ==>
                r == Ok(MockResponse(req, freshId, now)) &&
                context == old(context).(recentQueries := Some(old(context).recentQueries.GetOr([]) + [OrElse(req.prompt, "unknown")]),
                                         lastUpdated := Some(now)) &&
                emitted == old(emitted) + ["inference.completed"]
    {
      if req.modelId.Some? && req.modelId.value != "" && !models.Has(req.modelId.value) {
        return Err(Thrown("Model not loaded" + req.modelId.value));
      }
      var response := MockResponse(req, freshId, now);
      var q := if context.recentQueries.Some? then context.recentQueries.value else [];
      q := q + [if req.prompt.Some? && req.prompt.value != "" then req.prompt.value else "unknown"];
      context := context.(recentQueries := Some(q), lastUpdated := Some(now));
      emitted := emitted + ["inference.completed"];
      r := Ok(response);
    }

    /** `train(job)`: marks the job completed now and returns it. */
    method Train(job: TrainingJob, now: int) returns (done: TrainingJob)
      modifies this`emitted
      ensures done == job.(status := Completed, completedAt := Some(now))
      ensures emitted == old(emitted) + ["training.completed"]
    {
      done := job.(status := Completed, completedAt := Some(now));
      emitted := emitted + ["training.completed"];
    }

    /** `getContext()`: the current context. */
    function GetContext(): (c: Context)
      reads this
      ensures c == context
    {
      context
    }

    /** `updateContext(partial)`: overlays the partial; unlike the ContextManager it does not stamp lastUpdated. */
    method UpdateContext(partial: ContextPatch)
      modifies this`context, this`emitted
      ensures context == Overlay(old(context), partial)
      ensures partial.lastUpdated.None? ==> context.lastUpdated == old(context).lastUpdated
      ensures emitted == old(emitted) + ["context.updated"]
    {
      context := Overlay(context, partial);
      emitted := emitted + ["context.updated"];
    }

    /** `annotate(targetId, data)`: appends the new annotation to the target's list, creating the list when needed. */
    method Annotate(targetId: string, data: AnnotationPatch, freshId: string, now: int) returns (a: Annotation)
      requires Valid()
      modifies this`annotations, this`emitted
      ensures Valid()
      ensures a == NewAnnotation(targetId, data, freshId, now)
      ensures annotations == old(annotations).Set(targetId, old(annotations).Get(targetId).GetOr([]) + [a])
      ensures emitted == old(emitted) + ["annotation.created"]
    {
      a := SpreadAnnotation(Defaulted(targetId, data, freshId, now), data);
      if !annotations.Has(targetId) {
        annotations := annotations.Set(targetId, []);
      }
      annotations := annotations.Set(targetId, annotations.vals[targetId] + [a]);
      emitted := emitted + ["annotation.created"];
    }

    /** `summaryInsights()`: appends exactly one new insight and returns every insight so far. */
    method SummaryInsights(freshId: string, now: int) returns (r: seq<Insight>)
      modifies this`insights, this`emitted
      ensures insights == old(insights) + [NewInsight(freshId, now)] && r == insights
      ensures |r| == |old(insights)| + 1
      ensures emitted == old(emitted) + ["insight.created"]
    {
      insights := insights + [NewInsight(freshId, now)];
      emitted := emitted + ["insight.created"];
      r := insights;
    }
  }

  /**
   * Inferring against a model only works once it is loaded; each accepted request lengthens the
   * query buffer by one, without the 200-entry bound of the ContextManager.
   */
  method LoadThenInfer(modelId: string, req: Request, sessionId: string, freshId: string, now: int)
    returns (before: Result<Response>, after: Result<Response>, queries: seq<string>)
    requires req.modelId == Some(modelId) && modelId != ""
    ensures before == Err(Thrown("Model not loaded" + modelId))
    ensures after == Ok(MockResponse(req, freshId, now))
    ensures queries == [OrElse(req.prompt, "unknown")]
  {
    var c := new Controlling(sessionId, now);
    before := c.Infer(req, freshId, now);
    var _ := c.LoadModel(modelId, now);
    after := c.Infer(req, freshId, now);
    queries := c.context.recentQueries.value;
  }
}
