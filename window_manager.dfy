/**
 * The WindowManager of the windows/ directory: BrowserWindows and their WindowMetaData objects in
 * two maps keyed by custom id, every new record also added to the WindowsPersistence cache.
 *
 * Its lifecycle listeners and closeWindow look entries up by the window's numeric id instead, and
 * it reads and writes `lastFocus`, `state` and `customId` directly on the WindowMetaData instance,
 * where they are not the fields kept in its private record (see WindowMeta).
 */
module WindowRegistry {
  import opened Common
  import opened OrderedMap
  import opened WindowMeta
  import opened WindowPersist
  import opened WindowCommon
  import LegacyWindows

  /** The record createWindow gives a new window (createdAt and lastFocus both `now`). */
  function NewProps(customId: string, o: WindowOptions, bounds: Rect, now: int): (p: Props)
    ensures Complete(p)
  {
    Props(Some(customId), None, o.route, o.wtype, Some(now), Some(Active), Some(now), Some(bounds), None, None)
  }

  /**
   * The registry as values: the two maps (records read through their props), the persistence
   * cache, the calls made on BrowserWindows, and the id Electron gives the next window.
   */
  datatype Registry = Registry(
    windows: OMap<string, Handle>,
    metas: OMap<string, Props>,
    cache: OMap<Key, Props>,
    calls: seq<WinCall>,
    nextId: nat)

  ghost predicate RegistryValid(r: Registry) {
    r.windows.Valid() && r.metas.Valid() && r.cache.Valid()
  }

  /**
   * What createWindow does when the custom id is not found: a new BrowserWindow under the custom
   * id, a new record under it in the metadata map and in the persistence cache, then loadURL.
   */
  function CreatedEffect(r: Registry, scheme: string, customId: string, o: WindowOptions,
                         getBounds: nat -> Rect, now: int): (r': Registry)
  {
    var h := NewHandle(r.nextId, o);
    var p := NewProps(customId, o, getBounds(h.id), now);
    Registry(r.windows.Set(customId, h), r.metas.Set(customId, p), r.cache.Set(Some(customId), p),
             r.calls + [Created(h), LoadUrl(h.id, PageUrl(scheme, o.route, o.query, o.hash))],
             r.nextId + 1)
  }

  /**
   * Creating twice under one custom id, when nothing deduplicates: the map keeps only the second
   * handle, and the first window, still open, is no longer reachable through the registry.
   */
  lemma DuplicateCreateOrphansFirst(r: Registry, scheme: string, customId: string, o1: WindowOptions,
                                    o2: WindowOptions, getBounds: nat -> Rect, now: int)
    requires forall k :: k in r.windows.vals ==> r.windows.vals[k].id < r.nextId
    ensures var r2 := CreatedEffect(CreatedEffect(r, scheme, customId, o1, getBounds, now),
                                    scheme, customId, o2, getBounds, now);
            r2.windows.Get(customId) == Some(NewHandle(r.nextId + 1, o2)) &&
            (forall k :: k in r2.windows.vals ==> r2.windows.vals[k].id != r.nextId) &&
            r2.calls[|r.calls|] == Created(NewHandle(r.nextId, o1))
  {
    var r1 := CreatedEffect(r, scheme, customId, o1, getBounds, now);
    var r2 := CreatedEffect(r1, scheme, customId, o2, getBounds, now);
    forall k | k in r2.windows.vals
      ensures r2.windows.vals[k].id != r.nextId
    {
      if k != customId {
        assert r2.windows.Get(k) == r.windows.Get(k);
      }
    }
  }

  /** What restorePreviousSession asks createWindow for. */
  datatype Request = Request(customId: string, options: WindowOptions)

  /** `createWindow(meta.id, {route: meta.route, bounds: meta.data.bounds, type: meta.data.type})`. */
  function ToRequest(p: Props): Request {
    Request(OrElse(p.customId, ""), NoOptions.(route := Some(OrElse(p.route, "")), bounds := p.bounds, wtype := p.wtype))
  }

  /**
   * The createWindow calls restorePreviousSession makes for the records `ps[..i]`: one per record
   * not closed, in order.
   */
  function RestoreRequests(ps: seq<Props>, i: nat): (rs: seq<Request>)
    requires i <= |ps|
    ensures |rs| <= i
    decreases i
  {
    if i == 0 then []
    else
      var prev := RestoreRequests(ps, i - 1);
      if ps[i - 1].state == Some(Closed) then prev else prev + [ToRequest(ps[i - 1])]
  }

  /** Every record not closed is asked for, and nothing else is. */
  lemma {:induction false} RestoreRequestsMembers(ps: seq<Props>, i: nat)
    requires i <= |ps|
    ensures forall j :: 0 <= j < i && ps[j].state != Some(Closed) ==> ToRequest(ps[j]) in RestoreRequests(ps, i)
    ensures forall q :: q in RestoreRequests(ps, i) ==>
              exists j :: 0 <= j < i && ps[j].state != Some(Closed) && q == ToRequest(ps[j])
    decreases i
  {
    if i > 0 {
      RestoreRequestsMembers(ps, i - 1);
    }
  }

  /** The window id restoring gives record `i`: one more than the windows made for the records before it. */
  function RestoredId(next: nat, ps: seq<Props>, i: nat): nat
    requires i <= |ps|
  {
    next + |RestoreRequests(ps, i)|
  }

  /** The handles map after restoring the records `ps[..i]`. */
  function RestoreWindows(w: OMap<string, Handle>, next: nat, ps: seq<Props>, i: nat): OMap<string, Handle>
    requires i <= |ps|
    decreases i
  {
    if i == 0 then w
    else
      var prev := RestoreWindows(w, next, ps, i - 1);
      if ps[i - 1].state == Some(Closed) then prev
      else prev.Set(ToRequest(ps[i - 1]).customId, NewHandle(RestoredId(next, ps, i - 1), ToRequest(ps[i - 1]).options))
  }

  function RestoreCalls(scheme: string, next: nat, ps: seq<Props>, i: nat): seq<WinCall>
    requires i <= |ps|
    decreases i
  {
    if i == 0 then []
    else
      var prev := RestoreCalls(scheme, next, ps, i - 1);
      if ps[i - 1].state == Some(Closed) then prev
      else
        var o := ToRequest(ps[i - 1]).options;
        var id := RestoredId(next, ps, i - 1);
        prev + [Created(NewHandle(id, o)), LoadUrl(id, PageUrl(scheme, o.route, o.query, o.hash))]
  }

  function RestoreMetas(m: OMap<string, Props>, next: nat, ps: seq<Props>, i: nat, getBounds: nat -> Rect, now: int)
    : OMap<string, Props>
    requires i <= |ps|
    decreases i
  {
    if i == 0 then m
    else
      var prev := RestoreMetas(m, next, ps, i - 1, getBounds, now);
      if ps[i - 1].state == Some(Closed) then prev
      else
        var q := ToRequest(ps[i - 1]);
        prev.Set(q.customId, NewProps(q.customId, q.options, getBounds(RestoredId(next, ps, i - 1)), now))
  }

  function RestoreCache(c: OMap<Key, Props>, next: nat, ps: seq<Props>, i: nat, getBounds: nat -> Rect, now: int)
    : OMap<Key, Props>
    requires i <= |ps|
    decreases i
  {
    if i == 0 then c
    else
      var prev := RestoreCache(c, next, ps, i - 1, getBounds, now);
      if ps[i - 1].state == Some(Closed) then prev
      else
        var q := ToRequest(ps[i - 1]);
        prev.Set(Some(q.customId), NewProps(q.customId, q.options, getBounds(RestoredId(next, ps, i - 1)), now))
  }

  /**
   * restorePreviousSession over the records `ps[..i]`, when no createWindow finds an existing
   * window: one new window per record that is not closed, in record order.
   */
  function RestoreEffect(r: Registry, ps: seq<Props>, i: nat, scheme: string, getBounds: nat -> Rect, now: int)
    : Registry
    requires i <= |ps|
  {
    Registry(RestoreWindows(r.windows, r.nextId, ps, i), RestoreMetas(r.metas, r.nextId, ps, i, getBounds, now),
             RestoreCache(r.cache, r.nextId, ps, i, getBounds, now), r.calls + RestoreCalls(scheme, r.nextId, ps, i),
             RestoredId(r.nextId, ps, i))
  }

  /** Restoring no record changes nothing. */
  lemma RestoreEffectNone(r: Registry, ps: seq<Props>, scheme: string, getBounds: nat -> Rect, now: int)
    ensures RestoreEffect(r, ps, 0, scheme, getBounds, now) == r
  {
    assert r.calls + [] == r.calls;
  }

  lemma RestoreEffectStep(r: Registry, ps: seq<Props>, i: nat, scheme: string, getBounds: nat -> Rect, now: int)
    requires i < |ps|
    ensures RestoreEffect(r, ps, i + 1, scheme, getBounds, now)
            == if ps[i].state == Some(Closed) then RestoreEffect(r, ps, i, scheme, getBounds, now)
               else CreatedEffect(RestoreEffect(r, ps, i, scheme, getBounds, now), scheme, ToRequest(ps[i]).customId,
                                  ToRequest(ps[i]).options, getBounds, now)
  {
    var q := ToRequest(ps[i]);
    var A := RestoreCalls(scheme, r.nextId, ps, i);
    if ps[i].state != Some(Closed) {
      var o := q.options;
      var id := RestoredId(r.nextId, ps, i);
      var tail := [Created(NewHandle(id, o)), LoadUrl(id, PageUrl(scheme, o.route, o.query, o.hash))];
      assert r.calls + (A + tail) == (r.calls + A) + tail;
    }
  }

  /** No record of `ps[..i]` that is not closed asks for custom id `k`. */
  ghost predicate Untouched(ps: seq<Props>, i: nat, k: string)
    requires i <= |ps|
  {
    forall j :: 0 <= j < i && ps[j].state != Some(Closed) ==> ToRequest(ps[j]).customId != k
  }

  /** A custom id no restored record asks for keeps its handle and its record. */
  lemma {:induction false} RestoreEffectUntouched(r: Registry, ps: seq<Props>, i: nat, scheme: string,
                                                  getBounds: nat -> Rect, now: int, k: string)
    requires i <= |ps| && Untouched(ps, i, k)
    ensures var r' := RestoreEffect(r, ps, i, scheme, getBounds, now);
            r'.windows.Get(k) == r.windows.Get(k) && r'.metas.Get(k) == r.metas.Get(k) &&
            r'.cache.Get(Some(k)) == r.cache.Get(Some(k))
    decreases i
  {
    if i > 0 {
      RestoreEffectUntouched(r, ps, i - 1, scheme, getBounds, now, k);
    }
  }

  /**
   * The window made for record `j` (not closed, and no later restored record with the same custom
   * id) is the one left under its custom id, with id next plus the number of requests before it,
   * and the record under that id is the one createWindow built for it.
   */
  lemma {:induction false} RestoreEffectLastWins(r: Registry, ps: seq<Props>, i: nat, scheme: string,
                                                 getBounds: nat -> Rect, now: int, j: nat)
    requires j < i <= |ps| && ps[j].state != Some(Closed)
    requires forall l :: j < l < i && ps[l].state != Some(Closed) ==> ToRequest(ps[l]).customId != ToRequest(ps[j]).customId
    ensures var r' := RestoreEffect(r, ps, i, scheme, getBounds, now);
            var q := ToRequest(ps[j]);
            var id := r.nextId + |RestoreRequests(ps, j)|;
            r'.windows.Get(q.customId) == Some(NewHandle(id, q.options)) &&
            r'.metas.Get(q.customId) == Some(NewProps(q.customId, q.options, getBounds(id), now))
    decreases i
  {
    if j < i - 1 {
      RestoreEffectLastWins(r, ps, i - 1, scheme, getBounds, now, j);
    }
  }

  /** Two calls per request. */
  lemma {:induction false} RestoreCallsLength(scheme: string, next: nat, ps: seq<Props>, i: nat)
    requires i <= |ps|
    ensures |RestoreCalls(scheme, next, ps, i)| == 2 * |RestoreRequests(ps, i)|
    decreases i
  {
    if i > 0 {
      RestoreCallsLength(scheme, next, ps, i - 1);
    }
  }

  /** Later records only append calls. */
  lemma {:induction false} RestoreCallsKept(scheme: string, next: nat, ps: seq<Props>, k: nat, i: nat, x: nat)
    requires k <= i <= |ps| && x < |RestoreCalls(scheme, next, ps, k)|
    ensures x < |RestoreCalls(scheme, next, ps, i)|
    ensures RestoreCalls(scheme, next, ps, i)[x] == RestoreCalls(scheme, next, ps, k)[x]
    decreases i
  {
    if k < i {
      RestoreCallsKept(scheme, next, ps, k, i - 1, x);
    }
  }

  /**
   * The calls for record `j` (not closed): with m requests before it, calls 2m and 2m + 1 are the
   * constructor of a window with id next + m and its loadURL.
   */
  lemma RestoreCallsAt(scheme: string, next: nat, ps: seq<Props>, i: nat, j: nat)
    requires j < i <= |ps| && ps[j].state != Some(Closed)
    ensures var cs := RestoreCalls(scheme, next, ps, i);
            var m := |RestoreRequests(ps, j)|;
            var o := ToRequest(ps[j]).options;
            2 * m + 1 < |cs| &&
            cs[2 * m] == Created(NewHandle(next + m, o)) &&
            cs[2 * m + 1] == LoadUrl(next + m, PageUrl(scheme, o.route, o.query, o.hash))
  {
    RestoreCallsLength(scheme, next, ps, j);
    var m := |RestoreRequests(ps, j)|;
    RestoreCallsKept(scheme, next, ps, j + 1, i, 2 * m);
    RestoreCallsKept(scheme, next, ps, j + 1, i, 2 * m + 1);
  }

  class WindowManager {
    const persistence: WindowsPersistence
    const scheme: string
    var windows: OMap<string, Handle>
    var metadata: OMap<string, WindowMetaData>
    /** Every call made on a BrowserWindow, oldest first. */
    var calls: seq<WinCall>
    /** The id Electron gives the next BrowserWindow. */
    var nextId: nat
    /** For each window made here, the record its 'close' and 'resize' listeners captured. */
    var wired: map<nat, WindowMetaData>

    ghost predicate Valid()
      reads this, persistence
    {
      windows.Valid() && metadata.Valid() && persistence.Valid() &&
      (forall w :: w in wired ==> w < nextId)
    }

    /** No record carries an own `customId` property: what every reachable state satisfies. */
    ghost predicate NoAdHocIds()
      reads this, metadata.vals.Values
    {
      forall k :: k in metadata.vals ==> metadata.vals[k].customId == None
    }

    ghost function Snapshot(): (r: Registry)
      reads this, persistence, metadata.vals.Values, persistence.cache.vals.Values
      requires Valid()
      ensures RegistryValid(r)
    {
      Registry(windows, PropsOf(metadata), persistence.View(), calls, nextId)
    }

    /** `new WindowManager(customScheme)`, with the file the persistence will read and Electron's next id. */
    constructor (customScheme: Option<string>, disk: FileState, firstId: nat)
      ensures Valid() && NoAdHocIds() && fresh(persistence)
      ensures scheme == SchemeOf(customScheme)
      ensures persistence.file == disk && persistence.cache == Empty()
      ensures windows == Empty() && metadata == Empty() && calls == [] && nextId == firstId && wired == map[]
    {
      persistence := new WindowsPersistence(disk);
      scheme := SchemeOf(customScheme);
      windows := Empty();
      metadata := Empty();
      calls := [];
      nextId := firstId;
      wired := map[];
    }

    /** What findWindowByCustomId reads: each key with its instance's own `customId`. */
    function IdEntries(): (es: seq<IdEntry>)
      reads this, metadata.vals.Values
      requires metadata.Valid()
      ensures |es| == |metadata.keys|
      ensures forall i :: 0 <= i < |es| ==> es[i] == IdEntry(metadata.keys[i], metadata.vals[metadata.keys[i]].customId)
    {
      seq(|metadata.keys|, i requires 0 <= i < |metadata.keys| && metadata.keys[i] in metadata.vals
                            reads this, metadata.vals.Values =>
        IdEntry(metadata.keys[i], metadata.vals[metadata.keys[i]].customId))
    }

    /** What getLastActiveWindow reads: each key with its instance's own `lastFocus` and `state`. */
    function FocusEntries(): (es: seq<FocusEntry>)
      reads this, metadata.vals.Values
      requires metadata.Valid()
      ensures |es| == |metadata.keys|
      ensures forall i :: 0 <= i < |es| ==>
                es[i] == FocusEntry(metadata.keys[i], metadata.vals[metadata.keys[i]].lastFocus,
                                    metadata.vals[metadata.keys[i]].state)
    {
      seq(|metadata.keys|, i requires 0 <= i < |metadata.keys| && metadata.keys[i] in metadata.vals
                            reads this, metadata.vals.Values =>
        FocusEntry(metadata.keys[i], metadata.vals[metadata.keys[i]].lastFocus, metadata.vals[metadata.keys[i]].state))
    }

    ghost function Lookup(customId: string): Option<Handle>
      reads this, metadata.vals.Values
      requires metadata.Valid()
    {
      FindSpec(IdEntries(), customId, windows)
    }

    /** Since no record carries its own `customId`, the search by custom id never finds a window. */
    lemma LookupNeverFinds(customId: string)
      requires metadata.Valid() && NoAdHocIds()
      ensures Lookup(customId) == None
    {
    }

    /** `findWindowByCustomId(customId)`: the handle under the first entry whose instance has that customId. */
    method FindWindowByCustomId(customId: string) returns (r: Option<Handle>)
      requires Valid()
      ensures r == FindSpec(IdEntries(), customId, windows)
    {
      var i := 0;
      while i < |metadata.keys|
        invariant 0 <= i <= |metadata.keys|
        invariant forall j :: 0 <= j < i ==> IdEntries()[j].customId != Some(customId)
      {
        var k := metadata.keys[i];
        if metadata.vals[k].customId == Some(customId) {
          r := windows.Get(k);
          return;
        }
        i := i + 1;
      }
      r := None;
    }

    /**
     * `createWindow(customId, options)`. A window found by custom id is focused and returned and
     * nothing else changes; otherwise a new BrowserWindow and a new record are stored under the
     * custom id, the record is added to persistence, the URL is loaded and the listeners wired.
     */
    method CreateWindow(customId: string, options: WindowOptions, getBounds: nat -> Rect, now: int)
      returns (win: Handle, ghost meta: WindowMetaData?)
      requires Valid()
      modifies this, persistence
      ensures Valid() && persistence.file == old(persistence.file)
      ensures old(NoAdHocIds()) ==> NoAdHocIds()
      ensures old(Lookup(customId)).Some? ==>
                win == old(Lookup(customId)).value &&
                calls == old(calls) + [Focus(win.id)] &&
                windows == old(windows) && metadata == old(metadata) && persistence.cache == old(persistence.cache) &&
                nextId == old(nextId) && wired == old(wired)
      ensures old(Lookup(customId)).None? ==>
                win == NewHandle(old(nextId), options) && nextId == old(nextId) + 1 &&
                meta != null && fresh(meta) && meta.customId == None && meta.lastFocus == None && meta.state == None &&
                meta.props == NewProps(customId, options, getBounds(win.id), now) &&
                windows == old(windows).Set(customId, win) &&
                metadata == old(metadata).Set(customId, meta) &&
                persistence.cache == old(persistence.cache).Set(Some(customId), meta) &&
                calls == old(calls) + [Created(win), LoadUrl(win.id, PageUrl(scheme, options.route, options.query, options.hash))] &&
                wired == old(wired)[win.id := meta]
    {
      ghost var found := Lookup(customId);
      var existing := FindWindowByCustomId(customId);
      assert existing == found;
      if existing.Some? {
        win := existing.value;
        calls := calls + [Focus(win.id)];
        meta := null;
        return;
      }
      win, meta := CreateNew(customId, options, getBounds, now);
    }

    /** The search as evidently intended: each key with its record's customId (`meta.data.customId`). */
    ghost function RecordLookup(customId: string): Option<Handle>
      reads this, metadata.vals.Values
      requires metadata.Valid()
    {
      FindSpec(LegacyWindows.IdEntriesOf(PropsOf(metadata)), customId, windows)
    }

    /** findWindowByCustomId as evidently intended: the handle under the first entry whose record has the custom id. */
    method FindWindowByRecordId(customId: string) returns (r: Option<Handle>)
      requires Valid()
      ensures r == RecordLookup(customId)
    {
      ghost var ps := PropsOf(metadata);
      ghost var es := LegacyWindows.IdEntriesOf(ps);
      var i := 0;
      while i < |metadata.keys|
        invariant 0 <= i <= |metadata.keys|
        invariant forall j :: 0 <= j < i ==> es[j].customId != Some(customId)
      {
        var k := metadata.keys[i];
        assert es[i] == IdEntry(k, ps.vals[k].customId) && ps.vals[k] == metadata.vals[k].props;
        if metadata.vals[k].props.customId == Some(customId) {
          r := windows.Get(k);
          return;
        }
        i := i + 1;
      }
      r := None;
    }

    /**
     * createWindow as evidently intended: the search reads the records, so a custom id already
     * stored has its window focused and returned and nothing else changes. While every record
     * sits under its own custom id, the search by the custom id finds the returned window
     * afterwards, so a second call returns the first window instead of orphaning it.
     */
    method CreateWindowDeduplicating(customId: string, options: WindowOptions, getBounds: nat -> Rect, now: int)
      returns (win: Handle)
      requires Valid()
      modifies this, persistence
      ensures Valid() && persistence.file == old(persistence.file)
      ensures old(RecordLookup(customId)).Some? ==>
                win == old(RecordLookup(customId)).value &&
                calls == old(calls) + [Focus(win.id)] &&
                windows == old(windows) && metadata == old(metadata) && persistence.cache == old(persistence.cache) &&
                nextId == old(nextId) && wired == old(wired)
      ensures old(RecordLookup(customId)).None? ==>
                win == NewHandle(old(nextId), options) && nextId == old(nextId) + 1 &&
                windows == old(windows).Set(customId, win) &&
                PropsOf(metadata) == old(PropsOf(metadata)).Set(customId, NewProps(customId, options, getBounds(win.id), now)) &&
                calls == old(calls) + [Created(win), LoadUrl(win.id, PageUrl(scheme, options.route, options.query, options.hash))]
      ensures old(LegacyWindows.KeyedByOwnId(PropsOf(metadata))) ==>
                LegacyWindows.KeyedByOwnId(PropsOf(metadata)) && RecordLookup(customId) == Some(win)
    {
      ghost var before := PropsOf(metadata);
      var existing := FindWindowByRecordId(customId);
      if existing.Some? {
        win := existing.value;
        FocusWindow(win);
        assert PropsOf(metadata) == before;
        return;
      }
      win := CreateFindable(customId, options, getBounds, now);
    }

    /** `existing.focus()`. */
    method FocusWindow(win: Handle)
      modifies this`calls
      ensures calls == old(calls) + [Focus(win.id)]
    {
      calls := calls + [Focus(win.id)];
    }

    /** The branch of the intended createWindow that makes a window: CreateNew, after which the search finds it. */
    method CreateFindable(customId: string, options: WindowOptions, getBounds: nat -> Rect, now: int)
      returns (win: Handle)
      requires Valid()
      modifies this, persistence
      ensures Valid() && persistence.file == old(persistence.file)
      ensures win == NewHandle(old(nextId), options) && nextId == old(nextId) + 1
      ensures windows == old(windows).Set(customId, win)
      ensures PropsOf(metadata) == old(PropsOf(metadata)).Set(customId, NewProps(customId, options, getBounds(win.id), now))
      ensures calls == old(calls) + [Created(win), LoadUrl(win.id, PageUrl(scheme, options.route, options.query, options.hash))]
      ensures old(LegacyWindows.KeyedByOwnId(PropsOf(metadata))) ==>
                LegacyWindows.KeyedByOwnId(PropsOf(metadata)) && RecordLookup(customId) == Some(win)
    {
      ghost var before := PropsOf(metadata);
      ghost var oldMeta := metadata;
      ghost var oldWindows := windows;
      ghost var meta;
      win, meta := CreateNew(customId, options, getBounds, now);
      assert PropsOf(oldMeta) == before;
      PropsOfSet(oldMeta, customId, meta);
      if LegacyWindows.KeyedByOwnId(before) {
        LegacyWindows.CreatedIsFound(before, oldWindows, customId, win, meta.props);
      }
    }

    /** Adding a record without an own `customId` keeps NoAdHocIds, the other records being untouched. */
    twostate lemma NoAdHocIdsKept(new meta: WindowMetaData)
      requires old(metadata.Valid()) && metadata.Valid()
      requires unchanged(old(metadata.vals.Values))
      requires exists k :: metadata == old(metadata).Set(k, meta)
      requires meta.customId == None
      ensures old(NoAdHocIds()) ==> NoAdHocIds()
    {
      if old(NoAdHocIds()) {
        var c :| metadata == old(metadata).Set(c, meta);
        forall k | k in metadata.vals
          ensures metadata.vals[k].customId == None
        {
          if k != c {
            assert metadata.vals[k] == old(metadata.vals[k]);
          }
        }
      }
    }

    method CreateNew(customId: string, options: WindowOptions, getBounds: nat -> Rect, now: int)
      returns (win: Handle, ghost meta: WindowMetaData)
      requires Valid()
      modifies this, persistence
      ensures Valid() && persistence.file == old(persistence.file)
      ensures win == NewHandle(old(nextId), options) && nextId == old(nextId) + 1
      ensures fresh(meta) && meta.customId == None && meta.lastFocus == None && meta.state == None
      ensures meta.props == NewProps(customId, options, getBounds(win.id), now)
      ensures windows == old(windows).Set(customId, win)
      ensures metadata == old(metadata).Set(customId, meta)
      ensures persistence.cache == old(persistence.cache).Set(Some(customId), meta)
      ensures calls == old(calls) + [Created(win), LoadUrl(win.id, PageUrl(scheme, options.route, options.query, options.hash))]
      ensures wired == old(wired)[win.id := meta]
      ensures old(NoAdHocIds()) ==> NoAdHocIds()
    {
      win := NewHandle(nextId, options);
      nextId := nextId + 1;
      meta := Register(customId, win, NewProps(customId, options, getBounds(win.id), now), now);
      calls := calls + [Created(win), LoadUrl(win.id, PageUrl(scheme, options.route, options.query, options.hash))];
    }

    /** A new record for `init` stored under the custom id in both maps and in persistence, listeners wired. */
    method Register(customId: string, win: Handle, init: Props, now: int) returns (ghost meta: WindowMetaData)
      requires Valid() && Complete(init) && init.customId == Some(customId) && win.id < nextId
      modifies this`windows, this`metadata, this`wired, persistence`cache
      ensures Valid()
      ensures fresh(meta) && meta.customId == None && meta.lastFocus == None && meta.state == None
      ensures meta.props == init
      ensures windows == old(windows).Set(customId, win)
      ensures metadata == old(metadata).Set(customId, meta)
      ensures persistence.cache == old(persistence.cache).Set(Some(customId), meta)
      ensures wired == old(wired)[win.id := meta]
      ensures old(NoAdHocIds()) ==> NoAdHocIds()
    {
      WithDefaultsOfComplete(init, now);
      var m := new WindowMetaData(init, now);
      meta := m;
      persistence.Add(m);
      Store(customId, win, m);
      NoAdHocIdsKept(m);
    }

    /** Both maps get the entry under the custom id, and the window's listeners capture the record. */
    method Store(customId: string, win: Handle, m: WindowMetaData)
      requires Valid() && win.id < nextId
      modifies this`windows, this`metadata, this`wired
      ensures Valid()
      ensures windows == old(windows).Set(customId, win)
      ensures metadata == old(metadata).Set(customId, m)
      ensures wired == old(wired)[win.id := m]
    {
      windows := windows.Set(customId, win);
      metadata := metadata.Set(customId, m);
      wired := wired[win.id := m];
    }

    /** The 'ready-to-show' listener: shows the window. */
    method OnReadyToShow(w: nat)
      requires w in wired
      modifies this`calls
      ensures calls == old(calls) + [ShowWin(w)]
    {
      calls := calls + [ShowWin(w)];
    }

    /** The 'close' listener: the captured record's state becomes closed, then the cache is saved. */
    method OnClose(w: nat, writeOk: bool)
      requires Valid() && w in wired
      modifies wired[w], persistence`file
      ensures Valid()
      ensures wired[w].props == old(wired[w].props).(state := Some(Closed))
      ensures persistence.file == if writeOk then Stored(Saved(persistence.View())) else old(persistence.file)
    {
      wired[w].SetState(Closed);
      var saved := persistence.Save(writeOk);
    }

    /** The 'resize' listener: only the captured record's bounds change, then the cache is saved. */
    method OnResize(w: nat, bounds: Rect, writeOk: bool)
      requires Valid() && w in wired
      modifies wired[w], persistence`file
      ensures Valid()
      ensures wired[w].props == old(wired[w].props).(bounds := Some(bounds))
      ensures persistence.file == if writeOk then Stored(Saved(persistence.View())) else old(persistence.file)
    {
      wired[w].UpdateBounds(bounds);
      var saved := persistence.Save(writeOk);
    }

    /** The record stored under key `k`, as a frame. */
    function MetaAt(k: string): set<WindowMetaData>
      reads this
    {
      if k in metadata.vals then {metadata.vals[k]} else {}
    }

    /** `updateFocus(id)`: the entry under the window id's decimal spelling, if any, is focused now and active. */
    method UpdateFocus(id: nat, now: int)
      requires Valid()
      modifies MetaAt(NatToString(id))
      ensures old(NoAdHocIds()) ==> NoAdHocIds()
      ensures var k := NatToString(id);
              k in metadata.vals ==>
                metadata.vals[k].lastFocus == Some(now) && metadata.vals[k].state == Some(Active) &&
                metadata.vals[k].props == old(metadata.vals[k].props) &&
                metadata.vals[k].customId == old(metadata.vals[k].customId)
    {
      var k := NatToString(id);
      if k in metadata.vals {
        var meta := metadata.vals[k];
        meta.lastFocus := Some(now);
        meta.state := Some(Active);
      }
    }

    /** `updateState(id, state)`: the entry under the window id's decimal spelling, if any, takes `s`. */
    method UpdateState(id: nat, s: WindowState)
      requires Valid()
      modifies MetaAt(NatToString(id))
      ensures old(NoAdHocIds()) ==> NoAdHocIds()
      ensures var k := NatToString(id);
              k in metadata.vals ==>
                metadata.vals[k].state == Some(s) &&
                metadata.vals[k].lastFocus == old(metadata.vals[k].lastFocus) &&
                metadata.vals[k].props == old(metadata.vals[k].props) &&
                metadata.vals[k].customId == old(metadata.vals[k].customId)
    {
      var k := NatToString(id);
      if k in metadata.vals {
        metadata.vals[k].state := Some(s);
      }
    }

    /** `removeWindow(id)`: deletes the handle under the id's spelling; its record, if any, stays, closed. */
    method RemoveWindow(id: nat)
      requires Valid()
      modifies this`windows, MetaAt(NatToString(id))
      ensures Valid()
      ensures old(NoAdHocIds()) ==> NoAdHocIds()
      ensures windows == old(windows).Delete(NatToString(id))
      ensures var k := NatToString(id);
              k in metadata.vals ==>
                metadata.vals[k].state == Some(Closed) &&
                metadata.vals[k].lastFocus == old(metadata.vals[k].lastFocus) &&
                metadata.vals[k].props == old(metadata.vals[k].props) &&
                metadata.vals[k].customId == old(metadata.vals[k].customId)
    {
      var k := NatToString(id);
      windows := windows.Delete(k);
      if k in metadata.vals {
        metadata.vals[k].state := Some(Closed);
      }
    }

    /** The 'focus' listener of window `w`. */
    method OnFocus(w: nat, now: int)
      requires Valid()
      modifies MetaAt(NatToString(w))
      ensures old(NoAdHocIds()) ==> NoAdHocIds()
      ensures var k := NatToString(w);
              k in metadata.vals ==>
                metadata.vals[k].lastFocus == Some(now) && metadata.vals[k].state == Some(Active) &&
                metadata.vals[k].props == old(metadata.vals[k].props)
    {
      UpdateFocus(w, now);
    }

    /** The 'hide' listener of window `w`. */
    method OnHide(w: nat)
      requires Valid()
      modifies MetaAt(NatToString(w))
      ensures old(NoAdHocIds()) ==> NoAdHocIds()
      ensures var k := NatToString(w);
              k in metadata.vals ==> metadata.vals[k].state == Some(Hidden) && metadata.vals[k].props == old(metadata.vals[k].props)
    {
      UpdateState(w, Hidden);
    }

    /** The 'show' listener of window `w`. */
    method OnShow(w: nat)
      requires Valid()
      modifies MetaAt(NatToString(w))
      ensures old(NoAdHocIds()) ==> NoAdHocIds()
      ensures var k := NatToString(w);
              k in metadata.vals ==> metadata.vals[k].state == Some(Active) && metadata.vals[k].props == old(metadata.vals[k].props)
    {
      UpdateState(w, Active);
    }

    /** The 'closed' listener of window `w`. */
    method OnClosed(w: nat)
      requires Valid()
      modifies this`windows, MetaAt(NatToString(w))
      ensures Valid()
      ensures old(NoAdHocIds()) ==> NoAdHocIds()
      ensures windows == old(windows).Delete(NatToString(w))
      ensures var k := NatToString(w);
              k in metadata.vals ==> metadata.vals[k].state == Some(Closed) && metadata.vals[k].props == old(metadata.vals[k].props)
    {
      RemoveWindow(w);
    }

    /**
     * `getLastActiveWindow()`: the scan keeps the first active entry with the greatest lastFocus
     * and converts its key with Number; see Scan and Resolve.
     */
    method GetLastActiveWindow() returns (r: Option<Handle>)
      requires Valid()
      ensures r == Resolve(ChosenKey(FocusEntries()), windows)
    {
      var lastId := LastActiveId();
      if lastId.Some? && lastId.value != 0 {
        r := windows.Get(NatToString(lastId.value));
      } else {
        r := None;
      }
    }

    /** The loop of getLastActiveWindow: `Number(key)` of the entry the scan ends on, if any. */
    method LastActiveId() returns (lastId: Option<nat>)
      requires metadata.Valid()
      ensures var key := ChosenKey(FocusEntries());
              lastId == if key.Some? then ParseNumber(key.value) else None
    {
      ghost var es := FocusEntries();
      ghost var chosen: Option<nat> := None;
      lastId := None;
      var lastTime := 0;
      var i := 0;
      while i < |metadata.keys|
        invariant 0 <= i <= |metadata.keys|
        invariant ScanState(lastTime, chosen) == ScanUpTo(es, i)
        invariant chosen.Some? ==> chosen.value < |es| && lastId == ParseNumber(es[chosen.value].key)
        invariant chosen.None? ==> lastId == None
      {
        var k := metadata.keys[i];
        var meta := metadata.vals[k];
        assert es[i] == FocusEntry(k, meta.lastFocus, meta.state);
        if meta.lastFocus.Some? && meta.lastFocus.value > lastTime && meta.state == Some(Active) {
          lastTime := meta.lastFocus.value;
          lastId := ParseNumber(k);
          chosen := Some(i);
        }
        i := i + 1;
      }
    }

    /**
     * With keys that are custom ids starting with a letter (other than the 'I' of "Infinity"),
     * Number(key) is NaN for every key, so no window is ever the last active one.
     */
    lemma LastActiveMissesCustomKeys()
      requires metadata.Valid()
      requires forall k :: k in metadata.keys ==> LetterLed(k)
      ensures Resolve(ChosenKey(FocusEntries()), windows) == None
    {
      var es := FocusEntries();
      var s := Scan(es);
      if s.chosen.Some? {
        assert es[s.chosen.value].key in metadata.keys;
      }
    }

    /** `broadcast(channel, payload)`: one send per stored window, in map order. */
    method Broadcast(channel: string, payload: Value)
      requires Valid()
      modifies this`calls
      ensures calls == old(calls) + SendAll(windows.Values(), channel, payload)
    {
      var all := windows.Values();
      var i := 0;
      while i < |all|
        invariant 0 <= i <= |all|
        invariant calls == old(calls) + SendAll(all[..i], channel, payload)
      {
        assert all[..i + 1][..i] == all[..i];
        calls := calls + [Send(all[i].id, channel, payload)];
        i := i + 1;
      }
      assert all[..|all|] == all;
    }

    /** `sendTo(customId, channel, payload)`: a send to the window found by custom id, if any. */
    method SendTo(customId: string, channel: string, payload: Value)
      requires Valid()
      modifies this`calls
      ensures old(Lookup(customId)).None? ==> calls == old(calls)
      ensures old(Lookup(customId)).Some? ==> calls == old(calls) + [Send(old(Lookup(customId)).value.id, channel, payload)]
    {
      var win := FindWindowByCustomId(customId);
      if win.Some? {
        calls := calls + [Send(win.value.id, channel, payload)];
      }
    }

    ghost function Resolved(target: WinRef): Option<Handle>
      reads this, metadata.vals.Values
      requires metadata.Valid()
    {
      match target
      case ByCustomId(c) => Lookup(c)
      case ByNumber(n) => windows.Get(NatToString(n))
    }

    /**
     * `closeWindow(id)`: a string is searched by custom id, a number looked up by key. A window
     * found is closed and both entries under its numeric id are deleted; otherwise nothing changes.
     */
    method CloseWindow(target: WinRef)
      requires Valid()
      modifies this`windows, this`metadata, this`calls
      ensures Valid()
      ensures old(NoAdHocIds()) ==> NoAdHocIds()
      ensures old(Resolved(target)).None? ==>
                windows == old(windows) && metadata == old(metadata) && calls == old(calls)
      ensures old(Resolved(target)).Some? ==>
                var w := old(Resolved(target)).value.id;
                calls == old(calls) + [CloseWin(w)] &&
                windows == old(windows).Delete(NatToString(w)) &&
                metadata == old(metadata).Delete(NatToString(w))
    {
      ghost var found := Resolved(target);
      var win: Option<Handle>;
      match target {
        case ByCustomId(c) =>
          win := FindWindowByCustomId(c);
        case ByNumber(n) =>
          win := windows.Get(NatToString(n));
      }
      assert win == found;
      if win.Some? {
        Forget(win.value.id);
      }
    }

    /** The found window is closed and both entries under its numeric id are deleted. */
    method Forget(w: nat)
      requires Valid()
      modifies this`windows, this`metadata, this`calls
      ensures Valid()
      ensures old(NoAdHocIds()) ==> NoAdHocIds()
      ensures calls == old(calls) + [CloseWin(w)]
      ensures windows == old(windows).Delete(NatToString(w))
      ensures metadata == old(metadata).Delete(NatToString(w))
    {
      calls := calls + [CloseWin(w)];
      windows := windows.Delete(NatToString(w));
      metadata := metadata.Delete(NatToString(w));
    }

    /** `getWindow(id)`: the handle under the id's decimal spelling. */
    function GetWindow(id: nat): (r: Option<Handle>)
      reads this
      ensures r.Some? <==> NatToString(id) in windows.vals
      ensures r.Some? ==> r.value == windows.vals[NatToString(id)]
    {
      windows.Get(NatToString(id))
    }

    /** `getWindows()`: every stored handle, in map order. */
    function GetWindows(): (r: seq<Handle>)
      reads this
      requires windows.Valid()
      ensures |r| == |windows.keys|
      ensures forall i :: 0 <= i < |r| ==> r[i] == windows.vals[windows.keys[i]]
    {
      windows.Values()
    }

    /** `getMetadata(id)`: the record under the id's decimal spelling. */
    function GetMetadata(id: nat): (r: Option<WindowMetaData>)
      reads this
      ensures r.Some? <==> NatToString(id) in metadata.vals
      ensures r.Some? ==> r.value == metadata.vals[NatToString(id)]
    {
      metadata.Get(NatToString(id))
    }

    /**
     * `restorePreviousSession()`: loads the cache, then asks createWindow, in cache order, for
     * every loaded record whose state is not closed. `loaded` is what getAll returned.
     */
    method RestorePreviousSession(now: int, getBounds: nat -> Rect)
      returns (requests: seq<Request>, ghost loaded: seq<Props>)
      requires Valid()
      modifies this, persistence
      ensures Valid() && persistence.file == old(persistence.file)
      ensures loaded == LoadResult(old(persistence.View()), old(persistence.file), now).Values()
      ensures requests == RestoreRequests(loaded, |loaded|)
      ensures old(NoAdHocIds()) ==>
                NoAdHocIds() &&
                Snapshot() == RestoreEffect(old(Snapshot()).(cache := LoadResult(old(persistence.View()), old(persistence.file), now)),
                                            loaded, |loaded|, scheme, getBounds, now)
    {
      label start:
      persistence.Load(now);
      LoadedSnapshot@start(now);
      var all := persistence.GetAll();
      loaded := PropsSeq(all);
      requests := RestoreAll(all, loaded, now, getBounds);
    }

    /** After the cache is loaded, the registry value differs only in its cache. */
    twostate lemma LoadedSnapshot(now: int)
      requires old(Valid()) && Valid()
      requires unchanged(this) && unchanged(old(metadata.vals.Values))
      requires persistence.View() == LoadResult(old(persistence.View()), persistence.file, now)
      requires persistence.file == old(persistence.file)
      ensures old(NoAdHocIds()) ==> NoAdHocIds()
      ensures Snapshot() == old(Snapshot()).(cache := LoadResult(old(persistence.View()), old(persistence.file), now))
    {
      assert PropsOf(metadata) == old(PropsOf(metadata));
    }

    /** The createWindow calls of restorePreviousSession, one per record of `all` that is not closed. */
    method RestoreAll(all: seq<WindowMetaData>, ghost loaded: seq<Props>, now: int, getBounds: nat -> Rect)
      returns (requests: seq<Request>)
      requires Valid()
      requires |all| == |loaded| && forall j :: 0 <= j < |all| ==> all[j].props == loaded[j]
      modifies this, persistence
      ensures Valid() && persistence.file == old(persistence.file)
      ensures requests == RestoreRequests(loaded, |loaded|)
      ensures old(NoAdHocIds()) ==>
                NoAdHocIds() && Snapshot() == RestoreEffect(old(Snapshot()), loaded, |loaded|, scheme, getBounds, now)
    {
      ghost var noAdHoc := NoAdHocIds();
      ghost var start := Snapshot();
      RestoreEffectNone(start, loaded, scheme, getBounds, now);
      requests := [];
      var i := 0;
      while i < |all|
        invariant 0 <= i <= |all|
        invariant Valid() && persistence.file == old(persistence.file)
        invariant requests == RestoreRequests(loaded, i)
        invariant noAdHoc ==> NoAdHocIds() && Snapshot() == RestoreEffect(start, loaded, i, scheme, getBounds, now)
      {
        requests := RestoreNext(all[i], start, loaded, i, noAdHoc, requests, now, getBounds);
        i := i + 1;
      }
    }

    /** One iteration of restorePreviousSession's loop: record `i` of `ps`, `meta` holding it. */
    method RestoreNext(meta: WindowMetaData, ghost start: Registry, ghost ps: seq<Props>, ghost i: nat,
                       ghost noAdHoc: bool, requests: seq<Request>, now: int, getBounds: nat -> Rect)
      returns (requests': seq<Request>)
      requires Valid() && i < |ps| && meta.props == ps[i]
      requires requests == RestoreRequests(ps, i)
      requires noAdHoc ==> NoAdHocIds() && Snapshot() == RestoreEffect(start, ps, i, scheme, getBounds, now)
      modifies this, persistence
      ensures Valid() && persistence.file == old(persistence.file)
      ensures requests' == RestoreRequests(ps, i + 1)
      ensures noAdHoc ==> NoAdHocIds() && Snapshot() == RestoreEffect(start, ps, i + 1, scheme, getBounds, now)
    {
      var q := Reopen(meta, now, getBounds);
      if noAdHoc {
        RestoreEffectStep(start, ps, i, scheme, getBounds, now);
      }
      requests' := if q.Some? then requests + [q.value] else requests;
    }

    /**
     * One record of restorePreviousSession: unless its state is closed, createWindow with its id,
     * its route, and its bounds and type.
     */
    method Reopen(meta: WindowMetaData, now: int, getBounds: nat -> Rect) returns (q: Option<Request>)
      requires Valid()
      modifies this, persistence
      ensures Valid() && persistence.file == old(persistence.file)
      ensures q == if meta.props.state != Some(Closed) then Some(ToRequest(meta.props)) else None
      ensures old(NoAdHocIds()) ==>
                NoAdHocIds() &&
                Snapshot() == if q.Some? then CreatedEffect(old(Snapshot()), scheme, q.value.customId, q.value.options, getBounds, now)
                              else old(Snapshot())
    {
      q := None;
      if meta.Data().state != Some(Closed) {
        var r := Request(meta.Id(), NoOptions.(route := Some(meta.Route()), bounds := meta.Data().bounds,
                                                wtype := meta.Data().wtype));
        Recreate(r, now, getBounds);
        q := Some(r);
      }
    }

    /** createWindow for a request, seen on the registry value: when no record has an own customId, a new window. */
    method Recreate(r: Request, now: int, getBounds: nat -> Rect)
      requires Valid()
      modifies this, persistence
      ensures Valid() && persistence.file == old(persistence.file)
      ensures old(NoAdHocIds()) ==>
                NoAdHocIds() && Snapshot() == CreatedEffect(old(Snapshot()), scheme, r.customId, r.options, getBounds, now)
    {
      ghost var noAdHoc := NoAdHocIds();
      ghost var snap0 := Snapshot();
      RecreateFields(r, now, getBounds);
      if noAdHoc {
        assert Snapshot() == CreatedEffect(snap0, scheme, r.customId, r.options, getBounds, now);
      }
    }

    /** The same createWindow, field by field. */
    method RecreateFields(r: Request, now: int, getBounds: nat -> Rect)
      requires Valid()
      modifies this, persistence
      ensures Valid() && persistence.file == old(persistence.file)
      ensures old(NoAdHocIds()) ==>
                var p := NewProps(r.customId, r.options, getBounds(old(nextId)), now);
                NoAdHocIds() && windows == old(windows).Set(r.customId, NewHandle(old(nextId), r.options)) &&
                PropsOf(metadata) == old(PropsOf(metadata)).Set(r.customId, p) &&
                persistence.View() == old(persistence.View()).Set(Some(r.customId), p) &&
                calls == old(calls) + [Created(NewHandle(old(nextId), r.options)),
                                       LoadUrl(old(nextId), PageUrl(scheme, r.options.route, r.options.query, r.options.hash))] &&
                nextId == old(nextId) + 1
    {
      ghost var noAdHoc := NoAdHocIds();
      if noAdHoc {
        LookupNeverFinds(r.customId);
      }
      ghost var metas0, cache0 := metadata, persistence.cache;
      ghost var props0, view0 := PropsOf(metadata), persistence.View();
      var win;
      ghost var m;
      win, m := CreateWindow(r.customId, r.options, getBounds, now);
      if noAdHoc {
        assert PropsOf(metas0) == props0 && PropsOf(cache0) == view0;
        PropsOfSet(metas0, r.customId, m);
        PropsOfSet(cache0, Some(r.customId), m);
      }
    }
  }

  /** The records of a list of WindowMetaData objects. */
  function PropsSeq(ms: seq<WindowMetaData>): (r: seq<Props>)
    reads set m | m in ms
    ensures |r| == |ms|
    ensures forall i :: 0 <= i < |ms| ==> r[i] == ms[i].props
  {
    seq(|ms|, i requires 0 <= i < |ms| reads set m | m in ms => ms[i].props)
  }

  /**
   * Two createWindow calls under one custom id on a fresh manager: as written the second call
   * makes a second window; with the search reading the records it returns the first window.
   */
  method CreateTwice(customId: string, options: WindowOptions, getBounds: nat -> Rect, disk: FileState,
                     firstId: nat, now: int)
    returns (first: Handle, second: Handle, firstIntended: Handle, secondIntended: Handle)
    ensures first.id == firstId && second.id == firstId + 1
    ensures firstIntended.id == firstId && secondIntended == firstIntended
  {
    var m := new WindowManager(None, disk, firstId);
    ghost var meta;
    first, meta := m.CreateWindow(customId, options, getBounds, now);
    m.LookupNeverFinds(customId);
    second, meta := m.CreateWindow(customId, options, getBounds, now);

    var m' := new WindowManager(None, disk, firstId);
    assert LegacyWindows.KeyedByOwnId(PropsOf(m'.metadata));
    firstIntended := m'.CreateWindowDeduplicating(customId, options, getBounds, now);
    secondIntended := m'.CreateWindowDeduplicating(customId, options, getBounds, now);
  }
}

