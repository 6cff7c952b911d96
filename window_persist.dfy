/**
 * WindowsPersistence: an in-memory cache of WindowMetaData objects keyed by custom id, loaded from
 * and saved to one file as a whole list. The file is an abstract store of records (JSON text and
 * its parsing are not modelled): it is missing, unreadable, or holds an array whose elements are
 * records or null.
 */
module WindowPersist {
  import opened Common
  import opened OrderedMap
  import opened WindowMeta

  /** A cache key: `load` uses a record's customId, which may be undefined (None). */
  type Key = Option<string>

  datatype FileState = Missing | Unreadable | Stored(records: seq<Option<Props>>)

  /** The cache seen as values: key to props, in insertion order. */
  type PropsView = OMap<Key, Props>

  /** What `save` writes for a cache whose view is `v`: every record's toJSON, in cache order. */
  function Saved(v: PropsView): (r: seq<Option<Props>>)
    requires v.Valid()
    ensures |r| == |v.keys|
    ensures forall i :: 0 <= i < |r| ==> r[i] == Some(v.vals[v.keys[i]])
  {
    seq(|v.keys|, i requires 0 <= i < |v.keys| => Some(v.vals[v.keys[i]]))
  }

  /**
   * What `load` does to the view of the cache when the file holds `recs`: each non-null record,
   * in file order, is constructed into a WindowMetaData and set under its customId.
   */
  function LoadInto(v: PropsView, recs: seq<Option<Props>>, now: int): (r: PropsView)
    requires v.Valid()
    ensures r.Valid()
    decreases |recs|
  {
    if recs == [] then v
    else
      var w := LoadInto(v, recs[..|recs| - 1], now);
      match recs[|recs| - 1]
      case None => w
      case Some(p) => w.Set(p.customId, WithDefaults(p, now))
  }

  /** The view of the cache after `load` reads `file`: unchanged unless the file holds records. */
  function LoadResult(v: PropsView, file: FileState, now: int): (r: PropsView)
    requires v.Valid()
    ensures r.Valid()
    ensures !file.Stored? ==> r == v
  {
    if file.Stored? then LoadInto(v, file.records, now) else v
  }

  /** The last non-null record of `recs` whose customId is `k`, if any. */
  function LastWithKey(recs: seq<Option<Props>>, k: Key): (r: Option<Props>)
    ensures r.Some? ==> Some(r.value) in recs && r.value.customId == k
    ensures r.None? ==> forall i :: 0 <= i < |recs| && recs[i].Some? ==> recs[i].value.customId != k
    decreases |recs|
  {
    if recs == [] then None
    else
      var last := recs[|recs| - 1];
      if last.Some? && last.value.customId == k then last
      else
        var r := LastWithKey(recs[..|recs| - 1], k);
        assert forall i :: 0 <= i < |recs| - 1 ==> recs[..|recs| - 1][i] == recs[i];
        r
  }

  /**
   * After `load`, a key holds the last record the file has for it (with the constructor's
   * defaults), so later duplicates overwrite earlier ones; a key the file does not mention keeps
   * what the cache already had.
   */
  lemma {:induction false} LoadIntoGet(v: PropsView, recs: seq<Option<Props>>, now: int, k: Key)
    requires v.Valid()
    ensures LastWithKey(recs, k).Some? ==>
              LoadInto(v, recs, now).Get(k) == Some(WithDefaults(LastWithKey(recs, k).value, now))
    ensures LastWithKey(recs, k).None? ==> LoadInto(v, recs, now).Get(k) == v.Get(k)
    decreases |recs|
  {
    if recs != [] {
      LoadIntoGet(v, recs[..|recs| - 1], now, k);
    }
  }

  /** A cache in which every entry sits under its own customId and has the constructor's fields. */
  ghost predicate KeyedByCustomId(v: PropsView) {
    forall k :: k in v.vals ==> v.vals[k].customId == k && Complete(v.vals[k])
  }

  /** The first `j` entries of `v`. */
  function Prefix(v: PropsView, j: nat): (r: PropsView)
    requires v.Valid() && j <= |v.keys|
    ensures r.Valid()
  {
    OMap(v.keys[..j], map k | k in v.keys[..j] :: v.vals[k])
  }

  lemma PrefixStep(v: PropsView, j: nat)
    requires v.Valid() && 0 < j <= |v.keys|
    ensures Prefix(v, j) == Prefix(v, j - 1).Set(v.keys[j - 1], v.vals[v.keys[j - 1]])
  {
    var k := v.keys[j - 1];
    assert k !in v.keys[..j - 1];
    assert v.keys[..j - 1] + [k] == v.keys[..j];
  }

  lemma {:induction false} SaveLoadPrefix(v: PropsView, now: int, j: nat)
    requires v.Valid() && KeyedByCustomId(v) && j <= |v.keys|
    ensures LoadInto(Empty(), Saved(v)[..j], now) == Prefix(v, j)
  {
    if j == 0 {
      assert Saved(v)[..0] == [];
      assert Prefix(v, 0).vals == map[];
    } else {
      var s := Saved(v)[..j];
      assert s[..j - 1] == Saved(v)[..j - 1];
      SaveLoadPrefix(v, now, j - 1);
      var k := v.keys[j - 1];
      assert s[j - 1] == Some(v.vals[k]);
      WithDefaultsOfComplete(v.vals[k], now);
      PrefixStep(v, j);
    }
  }

  /**
   * Round trip: loading what `save` wrote, into an empty cache, restores the same keys in the same
   * order and the same records, for a cache whose entries sit under their own customId.
   */
  lemma SaveLoadRoundTrip(v: PropsView, now: int)
    requires v.Valid() && KeyedByCustomId(v)
    ensures LoadInto(Empty(), Saved(v), now) == v
  {
    SaveLoadPrefix(v, now, |v.keys|);
    assert Saved(v)[..|v.keys|] == Saved(v);
    assert v.keys[..|v.keys|] == v.keys;
    assert Prefix(v, |v.keys|).vals == v.vals;
  }

  class WindowsPersistence {
    var cache: OMap<Key, WindowMetaData>
    var file: FileState

    ghost predicate Valid()
      reads this
    {
      cache.Valid()
    }

    /** The cache's records, by key, in insertion order. */
    function View(): (v: PropsView)
      reads this, cache.vals.Values
      requires Valid()
      ensures v.Valid() && v.keys == cache.keys
      ensures forall k :: k in cache.vals ==> k in v.vals && v.vals[k] == cache.vals[k].props
    {
      PropsOf(cache)
    }

    /** The cache starts empty; `disk` is what the file holds. */
    constructor (disk: FileState)
      ensures Valid() && cache == Empty() && file == disk
    {
      cache := Empty();
      file := disk;
    }

    /**
     * `load()`: a missing or unreadable file leaves the cache as it was; otherwise every non-null
     * record becomes a new WindowMetaData under its customId, on top of what the cache holds.
     */
    method Load(now: int)
      requires Valid()
      modifies this
      ensures Valid() && file == old(file)
      ensures !file.Stored? ==> cache == old(cache)
      ensures View() == LoadResult(old(View()), file, now)
      ensures forall k :: k in cache.vals ==> cache.vals[k] in old(cache.vals.Values) || fresh(cache.vals[k])
    {
      match file
      case Stored(recs) =>
        var i := 0;
        while i < |recs|
          invariant 0 <= i <= |recs|
          invariant Valid() && file == old(file)
          invariant View() == LoadInto(old(View()), recs[..i], now)
          invariant forall k :: k in cache.vals ==> cache.vals[k] in old(cache.vals.Values) || fresh(cache.vals[k])
        {
          assert recs[..i + 1][..i] == recs[..i];
          if recs[i].Some? {
            LoadRecord(recs[i].value, now);
          }
          i := i + 1;
        }
        assert recs[..|recs|] == recs;
      case _ =>
    }

    /** One record of `load`: a new WindowMetaData built from `p`, set under `p.customId`. */
    method LoadRecord(p: Props, now: int)
      requires Valid()
      modifies this`cache
      ensures Valid()
      ensures View() == old(View()).Set(p.customId, WithDefaults(p, now))
      ensures forall k :: k in cache.vals ==> cache.vals[k] in old(cache.vals.Values) || fresh(cache.vals[k])
    {
      var m := new WindowMetaData(p, now);
      PropsOfSet(cache, p.customId, m);
      cache := cache.Set(p.customId, m);
    }

    /**
     * `save()`: writes the toJSON of every cached record, in cache order, replacing the file.
     * A failed write (`writeOk` false) leaves the file as it was and is reported to the caller.
     */
    method Save(writeOk: bool) returns (r: Result<()>)
      requires Valid()
      modifies this`file
      ensures r == if writeOk then Ok(()) else Err(Thrown("write failed"))
      ensures file == if writeOk then Stored(Saved(View())) else old(file)
    {
      var all := Saved(View());
      if writeOk {
        file := Stored(all);
        r := Ok(());
      } else {
        r := Err(Thrown("write failed"));
      }
    }

    /** `add(meta)`: stores the record under `meta.id`, overwriting what was there. */
    method Add(meta: WindowMetaData)
      requires Valid()
      modifies this`cache
      ensures Valid()
      ensures cache == old(cache).Set(Some(meta.Id()), meta)
      ensures View() == old(View()).Set(Some(meta.Id()), meta.props)
    {
      PropsOfSet(cache, Some(meta.Id()), meta);
      cache := cache.Set(Some(meta.Id()), meta);
    }

    /** `remove(customId)`: deletes that key only. */
    method Remove(customId: string)
      requires Valid()
      modifies this`cache
      ensures Valid()
      ensures cache.Get(Some(customId)) == None
      ensures forall k :: k != Some(customId) ==> cache.Get(k) == old(cache).Get(k)
      ensures cache.keys == Without(old(cache).keys, Some(customId))
      ensures View() == old(View()).Delete(Some(customId))
    {
      PropsOfDelete(cache, Some(customId));
      cache := cache.Delete(Some(customId));
    }

    /** `get(customId)`: the stored record, or none. */
    function Get(customId: string): (r: Option<WindowMetaData>)
      reads this
      ensures r.Some? <==> Some(customId) in cache.vals
      ensures r.Some? ==> r.value == cache.vals[Some(customId)]
    {
      cache.Get(Some(customId))
    }

    /** `getAll()`: every record, in insertion order. */
    function GetAll(): (r: seq<WindowMetaData>)
      reads this
      requires Valid()
      ensures |r| == |cache.keys|
      ensures forall i :: 0 <= i < |r| ==> r[i] == cache.vals[cache.keys[i]]
    {
      cache.Values()
    }

    /** `clearAll()`: the cache is empty. */
    method ClearAll()
      modifies this`cache
      ensures Valid() && cache == Empty()
    {
      cache := Empty();
    }
  }
}
