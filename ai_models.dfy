/**
 * The ModelManager of Ai/model.manager.ts: model records in a map keyed by a fresh id, each named
 * after the last path segment of its source and marked installed or active.
 */
module AiModels {
  import opened Common
  import opened OrderedMap
  import opened AiTypes

  /** `OsAI.Model.Source`. */
  datatype Source = Local | Download | Cloud

  /** `OsAI.Model.Status`. */
  datatype Status = Installed | Active | Faulty | Pending

  /** The fields of `OsAI.Model.Metadata` this manager sets. */
  datatype ModelRecord = ModelRecord(
    id: string,
    name: string,
    source: Source,
    status: Option<Status>,
    installedAt: Option<int>,
    lastUsedAt: Option<int>)

  /** `s.split("/").pop()`: the text after the last '/', or all of `s` when it has none. */
  function AfterLastSlash(s: string): (r: string)
    ensures '/' !in r
    ensures |r| <= |s| && r == s[|s| - |r|..]
    ensures |r| < |s| ==> s[|s| - |r| - 1] == '/'
    decreases |s|
  {
    if |s| == 0 || s[|s| - 1] == '/' then "" else AfterLastSlash(s[..|s| - 1]) + [s[|s| - 1]]
  }

  /**
   * The three properties above single the segment out: any slash-free suffix of `s` that is all
   * of `s` or follows a '/' is the segment AfterLastSlash returns.
   */
  lemma {:induction false} AfterLastSlashUnique(s: string, t: string)
    requires '/' !in t && |t| <= |s| && t == s[|s| - |t|..]
    requires |t| < |s| ==> s[|s| - |t| - 1] == '/'
    ensures t == AfterLastSlash(s)
    decreases |s|
  {
    if |t| > 0 {
      assert t[|t| - 1] == s[|s| - 1];
      var s' := s[..|s| - 1];
      var t' := t[..|t| - 1];
      assert t' == s'[|s'| - |t'|..];
      AfterLastSlashUnique(s', t');
      assert t == t' + [s[|s| - 1]];
    }
  }

  /** `extractName(source)`: the last path segment, or 'unknow-model' when it is empty. */
  function ExtractName(source: string): (name: string)
    ensures name != ""
    ensures AfterLastSlash(source) != "" ==> name == AfterLastSlash(source)
    ensures AfterLastSlash(source) == "" ==> name == "unknow-model"
  {
    var seg := AfterLastSlash(source);
    if seg != "" then seg else "unknow-model"
  }

  /** A source ending in '/' (or empty) falls back to the placeholder name; a plain file name is its own name. */
  lemma ExtractNameCases(dir: string, file: string)
    requires '/' !in file && file != ""
    ensures ExtractName(dir + "/") == "unknow-model"
    ensures ExtractName(dir + "/" + file) == file
    ensures ExtractName(file) == file
  {
    AfterLastSlashUnique(dir + "/" + file, file);
    AfterLastSlashUnique(file, file);
  }

  /** `download` for a source starting with 'http' (so also 'https'), `local` for any other. */
  function SourceOf(sourceUrl: string): (src: Source)
    ensures src == Download <==> StartsWith(sourceUrl, "http")
    ensures src != Cloud
  {
    if StartsWith(sourceUrl, "http") then Download else Local
  }

  /** The record `install` builds: installed now, not yet used. */
  function NewRecord(sourceUrl: string, id: string, now: int): (m: ModelRecord)
    ensures m.id == id && m.name == ExtractName(sourceUrl) && m.source == SourceOf(sourceUrl)
    ensures m.status == Some(Installed) && m.installedAt == Some(now) && m.lastUsedAt == None
  {
    ModelRecord(id, ExtractName(sourceUrl), SourceOf(sourceUrl), Some(Installed), Some(now), None)
  }

  class ModelManager {
    var registry: OMap<string, ModelRecord>

    ghost predicate Valid()
      reads this
    {
      registry.Valid()
    }

    constructor ()
      ensures Valid() && registry == Empty()
    {
      registry := Empty();
    }

    /** `list()`: every record, in installation order. */
    function List(): (r: seq<ModelRecord>)
      requires Valid()
      reads this
      ensures |r| == |registry.keys|
      ensures forall i :: 0 <= i < |r| ==> registry.keys[i] in registry.vals && r[i] == registry.vals[registry.keys[i]]
      ensures forall id :: id in registry.vals ==> registry.vals[id] in r
    {
      registry.Values()
    }

    /** `activate(modelId)`: throws 'Model not found' for an unknown id; otherwise marks the record active and used now. */
    method Activate(modelId: string, now: int) returns (r: Result<()>)
      requires Valid()
      modifies this
      ensures Valid()
      ensures modelId !in old(registry.vals) ==> r == Err(Thrown("Model not found")) && registry == old(registry)
      ensures modelId in old(registry.vals) ==>
                r == Ok(()) &&
                registry == old(registry).Set(modelId, old(registry.vals[modelId]).(status := Some(Active), lastUsedAt := Some(now)))
    {
      var found := registry.Get(modelId);
      if found.None? {
        return Err(Thrown("Model not found"));
      }
      registry := registry.Set(modelId, found.value.(status := Some(Active), lastUsedAt := Some(now)));
      r := Ok(());
    }

    /**
     * `install(payload)`: stores a new installed record under the fresh id, then, with
     * autoActivate, activates it; the returned record is the stored one.
     */
    method Install(payload: InstallPayload, id: string, now: int) returns (m: ModelRecord)
      requires Valid()
      modifies this
      ensures Valid()
      ensures var n := NewRecord(payload.sourceUrl, id, now);
              m == (if payload.autoActivate == Some(true) then n.(status := Some(Active), lastUsedAt := Some(now)) else n)
      ensures registry == old(registry).Set(id, m)
    {
      m := NewRecord(payload.sourceUrl, id, now);
      registry := registry.Set(id, m);
      if payload.autoActivate == Some(true) {
        var _ := Activate(id, now);
        m := registry.vals[id];
      }
    }

    /** `deactivate(modelId)`: nothing for an unknown id; otherwise marks the record installed again. */
    method Deactivate(modelId: string)
      requires Valid()
      modifies this
      ensures Valid()
      ensures modelId !in old(registry.vals) ==> registry == old(registry)
      ensures modelId in old(registry.vals) ==>
                registry == old(registry).Set(modelId, old(registry.vals[modelId]).(status := Some(Installed)))
    {
      var found := registry.Get(modelId);
      if found.Some? {
        registry := registry.Set(modelId, found.value.(status := Some(Installed)));
      }
    }

    /** `remove(modelId)`: deletes the entry, if any. */
    method Remove(modelId: string)
      requires Valid()
      modifies this
      ensures Valid()
      ensures registry == old(registry).Delete(modelId)
    {
      registry := registry.Delete(modelId);
    }
  }

  /**
   * An installed model that is activated and then deactivated is back to installed, keeping the
   * time it was last used; an unknown id cannot be activated.
   */
  method ActivateDeactivate(payload: InstallPayload, id: string, other: string, t1: int, t2: int)
    returns (status: Option<Status>, lastUsed: Option<int>, missing: Result<()>)
    requires other != id && payload.autoActivate != Some(true)
    ensures status == Some(Installed) && lastUsed == Some(t2)
    ensures missing == Err(Thrown("Model not found"))
  {
    var mm := new ModelManager();
    var m := mm.Install(payload, id, t1);
    assert mm.registry.Get(id) == Some(m) && mm.registry.Get(other) == None;
    var _ := mm.Activate(id, t2);
    var active := m.(status := Some(Active), lastUsedAt := Some(t2));
    assert mm.registry.Get(id) == Some(active) && mm.registry.Get(other) == None;
    mm.Deactivate(id);
    assert mm.registry.Get(id) == Some(active.(status := Some(Installed))) && mm.registry.Get(other) == None;
    status := mm.registry.vals[id].status;
    lastUsed := mm.registry.vals[id].lastUsedAt;
    missing := mm.Activate(other, t2);
  }
}
