/**
 * The ContextManager of OsAI/context.manager.ts: holds one AI runtime context, overlays partial
 * updates on it and keeps the most recent queries in a buffer that a push trims at 200.
 *
 * `randomUUID()` and `Date.now()` are parameters. Emitted events are kept as a log of names.
 */
module ContextMgr {
  import opened Common
  import opened AiTypes

  /** The length above which `pushQuery` drops the oldest query. */
  const MaxQueries := 200

  /** The context built from defaults alone: a fresh session, hybrid mode, low awareness, empty lists and maps. */
  function Defaults(freshId: string, now: int): Context {
    Context(freshId, None, Hybrid, None, None, Some(Low), Some([]), Some(map[]), Some([]), Some([]), Some([]),
            Some(now), Some(map[]))
  }

  /**
   * The context `new ContextManager(init)` builds when `init` is present: each of the ten keys it
   * lists takes init's value when init has the key (`??`) and its default otherwise. The three
   * keys it does not list (modelId, userId, workspaceId) are absent whatever init holds.
   */
  function InitialContext(init: ContextPatch, freshId: string, now: int): (c: Context)
    ensures c.recentQueries.Some? && c.memoryState.Some? && c.focusTargets.Some? && c.lastUpdated.Some?
    ensures c.modelId == None && c.userId == None && c.workspaceId == None
  {
    Context(
      init.sessionId.GetOr(freshId),
      None,
      init.mode.GetOr(Hybrid),
      None,
      None,
      PickOpt(init.awarenessLevel, Some(Low)),
      PickOpt(init.recentQueries, Some([])),
      PickOpt(init.memoryState, Some(map[])),
      PickOpt(init.focusTargets, Some([])),
      PickOpt(init.activeProcesses, Some([])),
      PickOpt(init.activeWindows, Some([])),
      PickOpt(init.lastUpdated, Some(now)),
      PickOpt(init.metadata, Some(map[])))
  }

  /** Building from `init` is spreading init over the defaults, then dropping the three keys the constructor does not list. */
  lemma InitialContextOverDefaults(init: ContextPatch, freshId: string, now: int)
    ensures InitialContext(init, freshId, now)
            == Overlay(Defaults(freshId, now), init).(modelId := None, userId := None, workspaceId := None)
  {
  }

  /** A manager built from `{}` starts from the defaults alone. */
  lemma EmptyInitGivesDefaults(freshId: string, now: int)
    ensures InitialContext(NoPatch, freshId, now) == Defaults(freshId, now)
    ensures InitialContext(NoPatch, freshId, now).mode == Hybrid
    ensures InitialContext(NoPatch, freshId, now).awarenessLevel == Some(Low)
    ensures InitialContext(NoPatch, freshId, now).recentQueries == Some([])
  {
  }

  /** The buffer after one push: the prompt appended, then the oldest query dropped if more than 200 remain. */
  function Push(q: seq<string>, prompt: string): (r: seq<string>)
    ensures |r| > 0 && r[|r| - 1] == prompt
    ensures |q| < MaxQueries ==> r == q + [prompt]
    ensures |q| >= MaxQueries ==> r == q[1..] + [prompt]
    ensures |q| <= MaxQueries ==> |r| <= MaxQueries
  {
    var q' := q + [prompt];
    if |q'| > MaxQueries then q'[1..] else q'
  }

  /** The last `n` elements of `s`, or all of them when there are fewer. */
  function Last<T>(s: seq<T>, n: nat): (r: seq<T>)
    ensures |r| == if |s| <= n then |s| else n
  {
    if |s| <= n then s else s[|s| - n..]
  }

  /** The buffer after pushing the first `n` prompts, one at a time. */
  function PushAll(q: seq<string>, prompts: seq<string>, n: nat): seq<string>
    requires n <= |prompts|
    decreases n
  {
    if n == 0 then q else Push(PushAll(q, prompts, n - 1), prompts[n - 1])
  }

  /** One push on the last 200 queries of a history gives the last 200 of the history extended. */
  lemma PushLast(s: seq<string>, prompt: string)
    ensures Push(Last(s, MaxQueries), prompt) == Last(s + [prompt], MaxQueries)
  {
    if |s| >= MaxQueries {
      var l := Last(s, MaxQueries);
      assert l[1..] == s[|s| - MaxQueries + 1..];
      assert (s + [prompt])[|s| + 1 - MaxQueries..] == s[|s| - MaxQueries + 1..] + [prompt];
    }
  }

  /**
   * Starting from a buffer of at most 200 queries, any run of pushes leaves exactly the 200 most
   * recent queries (or all of them, when there are fewer), oldest first.
   */
  lemma {:induction false} PushesKeepMostRecent(q: seq<string>, prompts: seq<string>, n: nat)
    requires |q| <= MaxQueries && n <= |prompts|
    ensures PushAll(q, prompts, n) == Last(q + prompts[..n], MaxQueries)
    decreases n
  {
    if n == 0 {
      assert q + prompts[..0] == q;
    } else {
      PushesKeepMostRecent(q, prompts, n - 1);
      PushLast(q + prompts[..n - 1], prompts[n - 1]);
      assert q + prompts[..n - 1] + [prompts[n - 1]] == q + prompts[..n];
    }
  }

  /** The context after `pushQuery(prompt)` at time `now`: only the buffer and lastUpdated change. */
  function Pushed(c: Context, prompt: string, now: int): (r: Context)
    ensures r == c.(recentQueries := r.recentQueries, lastUpdated := Some(now))
    ensures r.recentQueries == Some(Push(c.recentQueries.GetOr([]), prompt))
  {
    c.(recentQueries := Some(Push(c.recentQueries.GetOr([]), prompt)), lastUpdated := Some(now))
  }

  /** The keys `get` accepts: the keys of `OsAI.Context`. */
  datatype ContextKey =
    | SessionIdKey | ModelIdKey | ModeKey | UserIdKey | WorkspaceIdKey | AwarenessLevelKey
    | RecentQueriesKey | MemoryStateKey | FocusTargetsKey | ActiveProcessesKey | ActiveWindowsKey
    | LastUpdatedKey | MetadataKey

  /** The value read at one key, by the key's type; None is `undefined`. */
  datatype FieldValue =
    | TextField(text: Option<string>)
    | ModeField(mode: Mode)
    | AwarenessField(level: Option<Awareness>)
    | ListField(items: Option<seq<string>>)
    | RecordField(record: Option<Record>)
    | TimeField(time: Option<int>)

  /** `c[key]`. */
  function Field(c: Context, key: ContextKey): FieldValue {
    match key
    case SessionIdKey => TextField(Some(c.sessionId))
    case ModelIdKey => TextField(c.modelId)
    case ModeKey => ModeField(c.mode)
    case UserIdKey => TextField(c.userId)
    case WorkspaceIdKey => TextField(c.workspaceId)
    case AwarenessLevelKey => AwarenessField(c.awarenessLevel)
    case RecentQueriesKey => ListField(c.recentQueries)
    case MemoryStateKey => RecordField(c.memoryState)
    case FocusTargetsKey => ListField(c.focusTargets)
    case ActiveProcessesKey => ListField(c.activeProcesses)
    case ActiveWindowsKey => ListField(c.activeWindows)
    case LastUpdatedKey => TimeField(c.lastUpdated)
    case MetadataKey => RecordField(c.metadata)
  }

  /** `p[key]`, when the patch has the key. */
  function PatchField(p: ContextPatch, key: ContextKey): Option<FieldValue> {
    match key
    case SessionIdKey => if p.sessionId.Some? then Some(TextField(p.sessionId)) else None
    case ModelIdKey => if p.modelId.Some? then Some(TextField(p.modelId)) else None
    case ModeKey => if p.mode.Some? then Some(ModeField(p.mode.value)) else None
    case UserIdKey => if p.userId.Some? then Some(TextField(p.userId)) else None
    case WorkspaceIdKey => if p.workspaceId.Some? then Some(TextField(p.workspaceId)) else None
    case AwarenessLevelKey => if p.awarenessLevel.Some? then Some(AwarenessField(p.awarenessLevel)) else None
    case RecentQueriesKey => if p.recentQueries.Some? then Some(ListField(p.recentQueries)) else None
    case MemoryStateKey => if p.memoryState.Some? then Some(RecordField(p.memoryState)) else None
    case FocusTargetsKey => if p.focusTargets.Some? then Some(ListField(p.focusTargets)) else None
    case ActiveProcessesKey => if p.activeProcesses.Some? then Some(ListField(p.activeProcesses)) else None
    case ActiveWindowsKey => if p.activeWindows.Some? then Some(ListField(p.activeWindows)) else None
    case LastUpdatedKey => if p.lastUpdated.Some? then Some(TimeField(p.lastUpdated)) else None
    case MetadataKey => if p.metadata.Some? then Some(RecordField(p.metadata)) else None
  }

  /** The context `update(partial)` leaves: the partial overlaid, then lastUpdated set to now. */
  function Updated(c: Context, partial: ContextPatch, now: int): Context {
    Overlay(c, partial).(lastUpdated := Some(now))
  }

  /**
   * After `update(partial)`, `get` reads now at lastUpdated (whatever the partial says), the
   * partial's value at every other key it has, and the old value at every key it lacks.
   */
  lemma GetAfterUpdate(c: Context, partial: ContextPatch, now: int, key: ContextKey)
    ensures key == LastUpdatedKey ==> Field(Updated(c, partial, now), key) == TimeField(Some(now))
    ensures key != LastUpdatedKey && PatchField(partial, key).Some? ==>
              Field(Updated(c, partial, now), key) == PatchField(partial, key).value
    ensures key != LastUpdatedKey && PatchField(partial, key).None? ==>
              Field(Updated(c, partial, now), key) == Field(c, key)
  {
  }

  /** A push changes what `get` reads at recentQueries and lastUpdated only. */
  lemma GetAfterPush(c: Context, prompt: string, now: int, key: ContextKey)
    ensures key != RecentQueriesKey && key != LastUpdatedKey ==> Field(Pushed(c, prompt, now), key) == Field(c, key)
    ensures Field(Pushed(c, prompt, now), LastUpdatedKey) == TimeField(Some(now))
  {
  }

  class ContextManager {
    var context: Context
    /** The names of the events emitted, oldest first. */
    var emitted: seq<string>

    /** `new ContextManager(init)` for a present `init`. */
    constructor (init: ContextPatch, freshId: string, now: int)
      ensures context == InitialContext(init, freshId, now) && emitted == []
    {
      context := InitialContext(init, freshId, now);
      emitted := [];
    }

    /**
     * `snapshot()`: `{...this.context}`, a shallow copy holding the current context's values. The
     * copy shares the context's arrays, which pushQuery later changes in place; contexts here are
     * values, so that sharing is not modelled.
     */
    function Snapshot(): (c: Context)
      reads this
      ensures c == context
    {
      context
    }

    /** `update(partial)`: overlays the partial, stamps lastUpdated with now, emits 'context.updated' and returns a snapshot. */
    method Update(partial: ContextPatch, now: int) returns (r: Context)
      modifies this
      ensures context == Updated(old(context), partial, now) && r == context
      ensures emitted == old(emitted) + ["context.updated"]
    {
      context := Overlay(context, partial).(lastUpdated := Some(now));
      emitted := emitted + ["context.updated"];
      r := Snapshot();
    }

    /**
     * `pushQuery(prompt)`: appends the prompt to the buffer (creating it when absent), drops the
     * oldest query when more than 200 remain, stamps lastUpdated and emits 'context.query'.
     */
    method PushQuery(prompt: string, now: int)
      modifies this
      ensures context == Pushed(old(context), prompt, now)
      ensures emitted == old(emitted) + ["context.query"]
    {
      var q := if context.recentQueries.Some? then context.recentQueries.value else [];
      q := q + [prompt];
      if |q| > MaxQueries {
        q := q[1..];
      }
      context := context.(recentQueries := Some(q), lastUpdated := Some(now));
      emitted := emitted + ["context.query"];
    }

    /** `get(key)`: the current context's value at the key. */
    function Get(key: ContextKey): (r: FieldValue)
      reads this
      ensures r == Field(context, key)
    {
      Field(context, key)
    }
  }

  /**
   * `new ContextManager(init)` as written: every key is read from `init` itself, so calling it
   * with no argument (`init` undefined) throws a TypeError before anything is built.
   */
  method NewContextManager(init: Option<ContextPatch>, freshId: string, now: int)
    returns (r: Result<ContextManager>)
    ensures init.None? <==> r == Err(TypeError)
    ensures init.Some? ==> r.Ok? && fresh(r.value) && r.value.context == InitialContext(init.value, freshId, now)
  {
    if init.None? {
      return Err(TypeError);
    }
    var m := new ContextManager(init.value, freshId, now);
    r := Ok(m);
  }

  /**
   * `new ContextManager()` as evidently intended: a missing `init` stands for `{}`, so the
   * manager starts from the defaults.
   */
  method NewContextManagerDefaulting(init: Option<ContextPatch>, freshId: string, now: int)
    returns (m: ContextManager)
    ensures fresh(m) && m.context == InitialContext(init.GetOr(NoPatch), freshId, now)
    ensures init.None? ==> m.context == Defaults(freshId, now)
  {
    m := new ContextManager(init.GetOr(NoPatch), freshId, now);
  }
}
