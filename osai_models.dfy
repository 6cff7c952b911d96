/**
 * The ModelManager of OsAI/model.manager.ts: installed model packages in a map keyed by a fresh
 * id, with activation recorded as an `active` flag in each package's metadata.
 *
 * Copying a `file://` source into the models directory is file I/O and is not modelled (its
 * failure is swallowed and does not affect the registry). `path.basename(sourceUrl)` is a
 * parameter; the three `Date.now()` readings of one install are one `now`.
 */
module OsAiModels {
  import opened Common
  import opened OrderedMap
  import opened AiTypes

  /** An emitted event: its name and the package as it was when emitted. */
  datatype ModelEvent = ModelEvent(name: string, pkg: ModelPackage)

  const Capabilities: seq<string> := ["infer", "analyze", "train"]

  /** `path.join(modelsDir, `${id}-${filename}`)` for an absolute, normalised models directory. */
  function InstalledPath(modelsDir: string, id: string, filename: string): string {
    modelsDir + "/" + id + "-" + filename
  }

  /**
   * The package `install` builds: stored under the fresh id (the payload's id is ignored), named
   * after the payload or the file, with version '0.0.1', empty checksum and signature, size 0
   * and empty metadata by default, hybrid mode and the three capabilities.
   */
  function NewPackage(p: InstallPayload, id: string, filename: string, modelsDir: string, now: int): (pkg: ModelPackage)
    ensures pkg.id == id && pkg.sourceUrl == p.sourceUrl
    ensures pkg.name == Some(p.name.GetOr(filename)) && pkg.version == p.version.GetOr("0.0.1")
    ensures pkg.checksum == p.expectedChecksum.GetOr("") && pkg.signature == p.signature.GetOr("")
    ensures pkg.sizeBytes == p.sizeBytes.GetOr(0) && pkg.metadata == Some(p.metadata.GetOr(map[]))
    ensures pkg.installedPath == InstalledPath(modelsDir, id, filename)
    ensures pkg.downloadedAt == pkg.installedAt == pkg.lastUpdated == now
    ensures pkg.mode == Some(Hybrid) && pkg.capabilities == Capabilities
  {
    ModelPackage(id, Some(p.name.GetOr(filename)), p.version.GetOr("0.0.1"), p.sourceUrl,
                 InstalledPath(modelsDir, id, filename), p.expectedChecksum.GetOr(""), p.signature.GetOr(""),
                 p.sizeBytes.GetOr(0), Capabilities, now, now, now, Some(Hybrid), Some(p.metadata.GetOr(map[])))
  }

  /** The package after `activate` (active true) or `deactivate` (active false) at time `now`. */
  function WithActive(pkg: ModelPackage, active: bool, now: int): (r: ModelPackage)
    ensures r.metadata.Some? && "active" in r.metadata.value && r.metadata.value["active"] == VBool(active)
    ensures forall k :: k != "active" ==> (k in r.metadata.value <==> pkg.metadata.Some? && k in pkg.metadata.value)
    ensures forall k :: k != "active" && k in r.metadata.value ==> r.metadata.value[k] == pkg.metadata.value[k]
    ensures r == pkg.(metadata := r.metadata, lastUpdated := now)
  {
    pkg.(metadata := Some(pkg.metadata.GetOr(map[])["active" := VBool(active)]), lastUpdated := now)
  }

  /** Switching a package's flag twice leaves only the last switch visible: the last write wins. */
  lemma LastSwitchWins(pkg: ModelPackage, a: bool, b: bool, t1: int, t2: int)
    ensures WithActive(WithActive(pkg, a, t1), b, t2) == WithActive(pkg, b, t2)
  {
    var m := pkg.metadata.GetOr(map[]);
    assert m["active" := VBool(a)]["active" := VBool(b)] == m["active" := VBool(b)];
  }

  class ModelManager {
    const modelsDir: string
    var registry: OMap<string, ModelPackage>
    /** The events emitted, oldest first. */
    var emitted: seq<ModelEvent>

    ghost predicate Valid()
      reads this
    {
      registry.Valid()
    }

    /** `new ModelManager(modelsDir)`, the directory already resolved. */
    constructor (dir: string)
      ensures Valid() && modelsDir == dir && registry == Empty() && emitted == []
    {
      modelsDir := dir;
      registry := Empty();
      emitted := [];
    }

    /**
     * `activate(modelId)`: throws "Model <id> not found" for an unknown id; otherwise sets the
     * package's active flag, refreshes lastUpdated and emits 'model.activated'.
     */
    method Activate(modelId: string, now: int) returns (r: Result<()>)
      requires Valid()
      modifies this
      ensures Valid()
      ensures modelId !in old(registry.vals) ==>
                r == Err(Thrown("Model " + modelId + " not found")) && registry == old(registry) && emitted == old(emitted)
      ensures modelId in old(registry.vals) ==>
                r == Ok(()) && registry == old(registry).Set(modelId, WithActive(old(registry.vals[modelId]), true, now)) &&
                emitted == old(emitted) + [ModelEvent("model.activated", registry.vals[modelId])]
    {
      var found := registry.Get(modelId);
      if found.None? {
        return Err(Thrown("Model " + modelId + " not found"));
      }
      var pkg := found.value;
      var meta := if pkg.metadata.Some? then pkg.metadata.value else map[];
      pkg := pkg.(metadata := Some(meta["active" := VBool(true)]), lastUpdated := now);
      registry := registry.Set(modelId, pkg);
      emitted := emitted + [ModelEvent("model.activated", pkg)];
      r := Ok(());
    }

    /**
     * `install(payload)`: stores a new package under the fresh id and emits 'model.installed';
     * with autoActivate the package is activated at once, and the returned package (the stored
     * object) shows it.
     */
    method Install(payload: InstallPayload, id: string, filename: string, now: int) returns (pkg: ModelPackage)
      requires Valid()
      modifies this
      ensures Valid()
      ensures var p := NewPackage(payload, id, filename, modelsDir, now);
              pkg == (if payload.autoActivate == Some(true) then WithActive(p, true, now) else p)
      ensures registry == old(registry).Set(id, pkg)
      ensures id !in old(registry.vals) ==> registry.keys == old(registry.keys) + [id]
      ensures emitted == old(emitted) + [ModelEvent("model.installed", NewPackage(payload, id, filename, modelsDir, now))] +
                         if payload.autoActivate == Some(true) then [ModelEvent("model.activated", pkg)] else []
    {
      pkg := NewPackage(payload, id, filename, modelsDir, now);
      registry := registry.Set(id, pkg);
      emitted := emitted + [ModelEvent("model.installed", pkg)];
      if payload.autoActivate == Some(true) {
        var _ := Activate(id, now);
        pkg := registry.vals[id];
      }
    }

    /** `deactivate(modelId)`: nothing for an unknown id; otherwise clears the active flag, refreshes lastUpdated and emits 'model.deactivated'. */
    method Deactivate(modelId: string, now: int)
      requires Valid()
      modifies this
      ensures Valid()
      ensures modelId !in old(registry.vals) ==> registry == old(registry) && emitted == old(emitted)
      ensures modelId in old(registry.vals) ==>
                registry == old(registry).Set(modelId, WithActive(old(registry.vals[modelId]), false, now)) &&
                emitted == old(emitted) + [ModelEvent("model.deactivated", registry.vals[modelId])]
    {
      var found := registry.Get(modelId);
      if found.None? {
        return;
      }
      var pkg := found.value;
      var meta := if pkg.metadata.Some? then pkg.metadata.value else map[];
      pkg := pkg.(metadata := Some(meta["active" := VBool(false)]), lastUpdated := now);
      registry := registry.Set(modelId, pkg);
      emitted := emitted + [ModelEvent("model.deactivated", pkg)];
    }

    /** `remove(modelId)`: nothing for an unknown id; otherwise deletes the entry and emits 'model.removed'. */
    method Remove(modelId: string)
      requires Valid()
      modifies this
      ensures Valid()
      ensures registry == old(registry).Delete(modelId)
      ensures modelId !in old(registry.vals) ==> registry == old(registry) && emitted == old(emitted)
      ensures modelId in old(registry.vals) ==>
                emitted == old(emitted) + [ModelEvent("model.removed", old(registry.vals[modelId]))]
    {
      var found := registry.Get(modelId);
      if found.None? {
        return;
      }
      registry := registry.Delete(modelId);
      emitted := emitted + [ModelEvent("model.removed", found.value)];
    }

    /** `list()`: every package, in installation order. */
    function List(): (r: seq<ModelPackage>)
      requires Valid()
      reads this
      ensures |r| == |registry.keys|
      ensures forall i :: 0 <= i < |r| ==> registry.keys[i] in registry.vals && r[i] == registry.vals[registry.keys[i]]
      ensures forall id :: id in registry.vals ==> registry.vals[id] in r
    {
      registry.Values()
    }

    /** `get(modelId)`: the package, or undefined. */
    function Get(modelId: string): (r: Option<ModelPackage>)
      reads this
      ensures r.Some? <==> modelId in registry.vals
      ensures r.Some? ==> r.value == registry.vals[modelId]
    {
      registry.Get(modelId)
    }
  }

  /**
   * Installing twice from the same payload, whatever its id, stores two packages under the two
   * fresh ids; activating and then deactivating the first leaves it inactive with the rest of its
   * metadata, and removing it leaves only the second.
   */
  method InstallActivateRemove(payload: InstallPayload, id1: string, id2: string, filename: string, dir: string,
                               t1: int, t2: int, t3: int)
    returns (first: ModelPackage, afterSwitch: Option<ModelPackage>, remaining: seq<ModelPackage>)
    requires id1 != id2 && payload.autoActivate != Some(true)
    ensures first.id == id1 && afterSwitch == Some(WithActive(first, false, t3))
    ensures |remaining| == 1 && remaining[0].id == id2
  {
    var m := new ModelManager(dir);
    first := m.Install(payload, id1, filename, t1);
    var second := m.Install(payload, id2, filename, t1);
    var _ := m.Activate(id1, t2);
    m.Deactivate(id1, t3);
    afterSwitch := m.Get(id1);
    LastSwitchWins(first, true, false, t2, t3);
    m.Remove(id1);
    remaining := m.List();
    assert m.registry.keys == Without([id1, id2], id1);
  }
}
