/**
 * The older WindowManager of main/classes: BrowserWindows and plain metadata objects in two maps
 * keyed by custom id, no persistence. The metadata objects are plain records here, so the search
 * by custom id reads the `customId` the record was created with; the lifecycle listeners and
 * closeWindow still look entries up under the window's numeric id.
 */
module LegacyWindows {
  import opened Common
  import opened OrderedMap
  import opened WindowMeta
  import opened WindowCommon

  /** The metadata object createWindow stores: type defaults to child; no bounds, no workspace. */
  function LegacyProps(customId: string, o: WindowOptions, now: int): (p: Props)
    ensures Complete(p) && p.customId == Some(customId) && p.route == o.route
    ensures p.state == Some(Active) && p.createdAt == Some(now) && p.lastFocus == Some(now)
    ensures o.wtype.Some? ==> p.wtype == o.wtype
    ensures o.wtype.None? ==> p.wtype == Some(ChildWindow)
    ensures p.bounds.None? && p.workspaceId.None? && p.maximized.None? && p.fullscreen.None?
  {
    Props(Some(customId), None, o.route, Some(o.wtype.GetOr(ChildWindow)), Some(now), Some(Active), Some(now),
          None, None, None)
  }

  /** Every record sits under the custom id it was created with. */
  ghost predicate KeyedByOwnId(m: OMap<string, Props>) {
    forall k :: k in m.vals ==> m.vals[k].customId == Some(k)
  }

  /** What findWindowByCustomId reads: each key with its record's customId. */
  function IdEntriesOf(m: OMap<string, Props>): (es: seq<IdEntry>)
    requires m.Valid()
    ensures |es| == |m.keys|
    ensures forall i :: 0 <= i < |es| ==> es[i] == IdEntry(m.keys[i], m.vals[m.keys[i]].customId)
  {
    seq(|m.keys|, i requires 0 <= i < |m.keys| && m.keys[i] in m.vals => IdEntry(m.keys[i], m.vals[m.keys[i]].customId))
  }

  /** What getLastActiveWindow reads: each key with its record's lastFocus and state. */
  function FocusEntriesOf(m: OMap<string, Props>): (es: seq<FocusEntry>)
    requires m.Valid()
    ensures |es| == |m.keys|
    ensures forall i :: 0 <= i < |es| ==>
              es[i] == FocusEntry(m.keys[i], m.vals[m.keys[i]].lastFocus, m.vals[m.keys[i]].state)
  {
    seq(|m.keys|, i requires 0 <= i < |m.keys| && m.keys[i] in m.vals =>
      FocusEntry(m.keys[i], m.vals[m.keys[i]].lastFocus, m.vals[m.keys[i]].state))
  }

  /**
   * With every record under its own custom id, the search by custom id finds exactly the handle
   * stored under that custom id, and nothing when no record has it.
   */
  lemma FindKeyed(m: OMap<string, Props>, customId: string, windows: OMap<string, Handle>)
    requires m.Valid() && KeyedByOwnId(m)
    ensures FindSpec(IdEntriesOf(m), customId, windows) == if customId in m.vals then windows.Get(customId) else None
  {
    var es := IdEntriesOf(m);
    if customId in m.vals {
      assert customId in m.keys;
      var j :| 0 <= j < |m.keys| && m.keys[j] == customId;
      assert es[j].customId == Some(customId);
      var i := FirstWithId(es, customId).value;
      assert m.vals[m.keys[i]].customId == Some(m.keys[i]);
    } else {
      forall i | 0 <= i < |es|
        ensures es[i].customId != Some(customId)
      {
        assert m.keys[i] in m.vals;
      }
    }
  }

  /**
   * Deduplication: once createWindow has stored a window and a record carrying the custom id
   * under that custom id, a later search by that custom id finds the window.
   */
  lemma CreatedIsFound(m: OMap<string, Props>, windows: OMap<string, Handle>, customId: string,
                       h: Handle, p: Props)
    requires m.Valid() && KeyedByOwnId(m) && p.customId == Some(customId)
    ensures KeyedByOwnId(m.Set(customId, p))
    ensures FindSpec(IdEntriesOf(m.Set(customId, p)), customId, windows.Set(customId, h)) == Some(h)
  {
    var m' := m.Set(customId, p);
    forall k | k in m'.vals
      ensures m'.vals[k].customId == Some(k)
    {
      if k != customId {
        assert m'.Get(k) == m.Get(k);
      }
    }
    FindKeyed(m', customId, windows.Set(customId, h));
  }

  /**
   * closeWindow by custom id deletes the entries under the window's numeric id: when the custom
   * id is not a decimal number, the window stays stored and findable after it is closed.
   */
  lemma CloseByCustomIdLeavesEntry(m: OMap<string, Props>, windows: OMap<string, Handle>, customId: string)
    requires m.Valid() && windows.Valid() && KeyedByOwnId(m)
    requires FindSpec(IdEntriesOf(m), customId, windows).Some?
    requires !AllDigits(customId)
    ensures var k := NatToString(FindSpec(IdEntriesOf(m), customId, windows).value.id);
            FindSpec(IdEntriesOf(m.Delete(k)), customId, windows.Delete(k)) == FindSpec(IdEntriesOf(m), customId, windows)
  {
    var h := FindSpec(IdEntriesOf(m), customId, windows).value;
    var k := NatToString(h.id);
    FindKeyed(m, customId, windows);
    assert k != customId;
    var m' := m.Delete(k);
    forall c | c in m'.vals
      ensures m'.vals[c].customId == Some(c)
    {
      assert m'.Get(c) == m.Get(c);
    }
    FindKeyed(m', customId, windows.Delete(k));
  }

  /** The key closeWindow's argument is looked up under: the custom id itself, or the number's spelling. */
  function TargetKey(target: WinRef): string {
    match target
    case ByCustomId(c) => c
    case ByNumber(n) => NatToString(n)
  }

  class LegacyWindowManager {
    var scheme: string
    var windows: OMap<string, Handle>
    var metadata: OMap<string, Props>
    /** Every call made on a BrowserWindow, oldest first. */
    var calls: seq<WinCall>
    /** The id Electron gives the next BrowserWindow. */
    var nextId: nat

    ghost predicate Valid()
      reads this
    {
      windows.Valid() && metadata.Valid() && KeyedByOwnId(metadata)
    }

    /** `new WindowManager(customScheme)`, with Electron's next window id. */
    constructor (customScheme: Option<string>, firstId: nat)
      ensures Valid() && scheme == SchemeOf(customScheme)
      ensures windows == Empty() && metadata == Empty() && calls == [] && nextId == firstId
    {
      scheme := SchemeOf(customScheme);
      windows := Empty();
      metadata := Empty();
      calls := [];
      nextId := firstId;
    }

    /** The window a search by custom id finds: the handle under that key, if it has a record. */
    function Existing(customId: string): (r: Option<Handle>)
      reads this
      ensures customId !in metadata.vals ==> r.None?
      ensures customId in metadata.vals ==> r == windows.Get(customId)
    {
      if customId in metadata.vals then windows.Get(customId) else None
    }

    /**
     * `findWindowByCustomId(customId)`: the handle under the first entry whose record has that
     * customId, which is the handle stored under the custom id itself.
     */
    method FindWindowByCustomId(customId: string) returns (r: Option<Handle>)
      requires Valid()
      ensures r == FindSpec(IdEntriesOf(metadata), customId, windows)
      ensures r == Existing(customId)
    {
      FindKeyed(metadata, customId, windows);
      var i := 0;
      while i < |metadata.keys|
        invariant 0 <= i <= |metadata.keys|
        invariant forall j :: 0 <= j < i ==> IdEntriesOf(metadata)[j].customId != Some(customId)
      {
        var k := metadata.keys[i];
        if metadata.vals[k].customId == Some(customId) {
          r := windows.Get(k);
          return;
        }
        i := i + 1;
      }
      r := None;
    }

    /**
     * `createWindow(customId, options)`. A window found by custom id is focused and returned and
     * nothing else changes; otherwise a new BrowserWindow and a new record go under the custom
     * id in both maps, and the URL is loaded.
     */
    method CreateWindow(customId: string, options: WindowOptions, now: int) returns (win: Handle)
      requires Valid()
      modifies this
      ensures Valid() && scheme == old(scheme)
      ensures old(Existing(customId)).Some? ==>
                win == old(Existing(customId)).value && calls == old(calls) + [Focus(win.id)] &&
                windows == old(windows) && metadata == old(metadata) && nextId == old(nextId)
      ensures old(Existing(customId)).None? ==>
                win == NewHandle(old(nextId), options) && nextId == old(nextId) + 1 &&
                windows == old(windows).Set(customId, win) &&
                metadata == old(metadata).Set(customId, LegacyProps(customId, options, now)) &&
                calls == old(calls) + [Created(win), LoadUrl(win.id, PageUrl(scheme, options.route, options.query, options.hash))]
      ensures Existing(customId) == Some(win)
    {
      var existing := FindWindowByCustomId(customId);
      if existing.Some? {
        win := existing.value;
        calls := calls + [Focus(win.id)];
        return;
      }
      win := NewHandle(nextId, options);
      nextId := nextId + 1;
      CreatedIsFound(metadata, windows, customId, win, LegacyProps(customId, options, now));
      windows := windows.Set(customId, win);
      metadata := metadata.Set(customId, LegacyProps(customId, options, now));
      calls := calls + [Created(win), LoadUrl(win.id, PageUrl(scheme, options.route, options.query, options.hash))];
    }

    /** The 'ready-to-show' listener: shows the window. */
    method OnReadyToShow(w: nat)
      modifies this`calls
      ensures calls == old(calls) + [ShowWin(w)]
    {
      calls := calls + [ShowWin(w)];
    }

    /** `updateFocus(id)`: the record under the id's decimal spelling, if any, is focused now and active. */
    method UpdateFocus(id: nat, now: int)
      requires Valid()
      modifies this`metadata
      ensures Valid()
      ensures var k := NatToString(id);
              metadata == if k in old(metadata.vals)
                          then old(metadata).Set(k, old(metadata.vals[k]).(lastFocus := Some(now), state := Some(Active)))
                          else old(metadata)
    {
      var k := NatToString(id);
      if k in metadata.vals {
        var meta := metadata.vals[k];
        metadata := metadata.Set(k, meta.(lastFocus := Some(now), state := Some(Active)));
        KeyedAfterUpdate(old(metadata), k, meta.(lastFocus := Some(now), state := Some(Active)));
      }
    }

    /** `updateState(id, state)`: the record under the id's decimal spelling, if any, takes `s`. */
    method UpdateState(id: nat, s: WindowState)
      requires Valid()
      modifies this`metadata
      ensures Valid()
      ensures var k := NatToString(id);
              metadata == if k in old(metadata.vals) then old(metadata).Set(k, old(metadata.vals[k]).(state := Some(s)))
                          else old(metadata)
    {
      var k := NatToString(id);
      if k in metadata.vals {
        var meta := metadata.vals[k];
        metadata := metadata.Set(k, meta.(state := Some(s)));
        KeyedAfterUpdate(old(metadata), k, meta.(state := Some(s)));
      }
    }

    /** `removeWindow(id)`: deletes the handle under the id's spelling; its record, if any, stays, closed. */
    method RemoveWindow(id: nat)
      requires Valid()
      modifies this`windows, this`metadata
      ensures Valid()
      ensures windows == old(windows).Delete(NatToString(id))
      ensures var k := NatToString(id);
              metadata == if k in old(metadata.vals) then old(metadata).Set(k, old(metadata.vals[k]).(state := Some(Closed)))
                          else old(metadata)
    {
      var k := NatToString(id);
      windows := windows.Delete(k);
      if k in metadata.vals {
        var meta := metadata.vals[k];
        metadata := metadata.Set(k, meta.(state := Some(Closed)));
        KeyedAfterUpdate(old(metadata), k, meta.(state := Some(Closed)));
      }
    }

    /** The 'focus' listener of window `w`. */
    method OnFocus(w: nat, now: int)
      requires Valid()
      modifies this`metadata
      ensures Valid()
      ensures var k := NatToString(w);
              metadata == if k in old(metadata.vals)
                          then old(metadata).Set(k, old(metadata.vals[k]).(lastFocus := Some(now), state := Some(Active)))
                          else old(metadata)
    {
      UpdateFocus(w, now);
    }

    /** The 'hide' listener of window `w`. */
    method OnHide(w: nat)
      requires Valid()
      modifies this`metadata
      ensures Valid()
      ensures var k := NatToString(w);
              metadata == if k in old(metadata.vals) then old(metadata).Set(k, old(metadata.vals[k]).(state := Some(Hidden)))
                          else old(metadata)
    {
      UpdateState(w, Hidden);
    }

    /** The 'show' listener of window `w`. */
    method OnShow(w: nat)
      requires Valid()
      modifies this`metadata
      ensures Valid()
      ensures var k := NatToString(w);
              metadata == if k in old(metadata.vals) then old(metadata).Set(k, old(metadata.vals[k]).(state := Some(Active)))
                          else old(metadata)
    {
      UpdateState(w, Active);
    }

    /** The 'closed' listener of window `w`. */
    method OnClosed(w: nat)
      requires Valid()
      modifies this`windows, this`metadata
      ensures Valid()
      ensures windows == old(windows).Delete(NatToString(w))
      ensures var k := NatToString(w);
              metadata == if k in old(metadata.vals) then old(metadata).Set(k, old(metadata.vals[k]).(state := Some(Closed)))
                          else old(metadata)
    {
      RemoveWindow(w);
    }

    /**
     * `getLastActiveWindow()`: the scan keeps the first active record with the greatest
     * lastFocus and converts its key with Number; see Scan and Resolve.
     */
    method GetLastActiveWindow() returns (r: Option<Handle>)
      requires Valid()
      ensures r == Resolve(ChosenKey(FocusEntriesOf(metadata)), windows)
    {
      var lastId := LastActiveId();
      if lastId.Some? && lastId.value != 0 {
        r := windows.Get(NatToString(lastId.value));
      } else {
        r := None;
      }
    }

    /** The loop of getLastActiveWindow: `Number(key)` of the entry the scan ends on, if any. */
    method LastActiveId() returns (lastId: Option<nat>)
      requires metadata.Valid()
      ensures var key := ChosenKey(FocusEntriesOf(metadata));
              lastId == if key.Some? then ParseNumber(key.value) else None
    {
      ghost var es := FocusEntriesOf(metadata);
      ghost var chosen: Option<nat> := None;
      lastId := None;
      var lastTime := 0;
      var i := 0;
      while i < |metadata.keys|
        invariant 0 <= i <= |metadata.keys|
        invariant ScanState(lastTime, chosen) == ScanUpTo(es, i)
        invariant chosen.Some? ==> chosen.value < |es| && lastId == ParseNumber(es[chosen.value].key)
        invariant chosen.None? ==> lastId == None
      {
        var k := metadata.keys[i];
        var meta := metadata.vals[k];
        assert es[i] == FocusEntry(k, meta.lastFocus, meta.state);
        if meta.lastFocus.Some? && meta.lastFocus.value > lastTime && meta.state == Some(Active) {
          lastTime := meta.lastFocus.value;
          lastId := ParseNumber(k);
          chosen := Some(i);
        }
        i := i + 1;
      }
    }

    /** `broadcast(channel, payload)`: one send per stored window, in map order. */
    method Broadcast(channel: string, payload: Value)
      requires Valid()
      modifies this`calls
      ensures calls == old(calls) + SendAll(windows.Values(), channel, payload)
    {
      var all := windows.Values();
      var i := 0;
      while i < |all|
        invariant 0 <= i <= |all|
        invariant calls == old(calls) + SendAll(all[..i], channel, payload)
      {
        assert all[..i + 1][..i] == all[..i];
        calls := calls + [Send(all[i].id, channel, payload)];
        i := i + 1;
      }
      assert all[..|all|] == all;
    }

    /** `sendTo(customId, channel, payload)`: a send to the window found by custom id, if any. */
    method SendTo(customId: string, channel: string, payload: Value)
      requires Valid()
      modifies this`calls
      ensures old(Existing(customId)).None? ==> calls == old(calls)
      ensures old(Existing(customId)).Some? ==> calls == old(calls) + [Send(old(Existing(customId)).value.id, channel, payload)]
    {
      var win := FindWindowByCustomId(customId);
      if win.Some? {
        calls := calls + [Send(win.value.id, channel, payload)];
      }
    }

    /** What closeWindow's argument resolves to: a custom id by search, a number by key. */
    function Resolved(target: WinRef): (r: Option<Handle>)
      reads this
      ensures target.ByNumber? ==> r == windows.Get(NatToString(target.n))
      ensures target.ByCustomId? ==> r == Existing(target.customId)
    {
      match target
      case ByCustomId(c) => Existing(c)
      case ByNumber(n) => windows.Get(NatToString(n))
    }

    /**
     * `closeWindow(id)`: a window found is closed and both entries under its numeric id are
     * deleted; otherwise nothing changes.
     */
    method CloseWindow(target: WinRef)
      requires Valid()
      modifies this`windows, this`metadata, this`calls
      ensures Valid()
      ensures old(Resolved(target)).None? ==>
                windows == old(windows) && metadata == old(metadata) && calls == old(calls)
      ensures old(Resolved(target)).Some? ==>
                var w := old(Resolved(target)).value.id;
                calls == old(calls) + [CloseWin(w)] &&
                windows == old(windows).Delete(NatToString(w)) &&
                metadata == old(metadata).Delete(NatToString(w))
    {
      var win: Option<Handle>;
      match target {
        case ByCustomId(c) =>
          win := FindWindowByCustomId(c);
        case ByNumber(n) =>
          win := windows.Get(NatToString(n));
      }
      if win.Some? {
        var k := NatToString(win.value.id);
        calls := calls + [CloseWin(win.value.id)];
        windows := windows.Delete(k);
        KeyedAfterDelete(metadata, k);
        metadata := metadata.Delete(k);
      }
    }

    /**
     * closeWindow as evidently intended: a window found is closed and both entries are deleted
     * under the key it was looked up by (the custom id, or the number's spelling), so the same
     * argument resolves to nothing afterwards.
     */
    method CloseWindowFoundKey(target: WinRef)
      requires Valid()
      modifies this`windows, this`metadata, this`calls
      ensures Valid()
      ensures old(Resolved(target)).None? ==>
                windows == old(windows) && metadata == old(metadata) && calls == old(calls)
      ensures old(Resolved(target)).Some? ==>
                calls == old(calls) + [CloseWin(old(Resolved(target)).value.id)] &&
                windows == old(windows).Delete(TargetKey(target)) &&
                metadata == old(metadata).Delete(TargetKey(target))
      ensures Resolved(target) == None
    {
      var win: Option<Handle>;
      match target {
        case ByCustomId(c) =>
          win := FindWindowByCustomId(c);
        case ByNumber(n) =>
          win := windows.Get(NatToString(n));
      }
      if win.Some? {
        var k := TargetKey(target);
        calls := calls + [CloseWin(win.value.id)];
        windows := windows.Delete(k);
        KeyedAfterDelete(metadata, k);
        metadata := metadata.Delete(k);
      }
    }

    /** `getWindow(id)`: the handle under the id's decimal spelling. */
    function GetWindow(id: nat): (r: Option<Handle>)
      reads this
      ensures r.Some? <==> NatToString(id) in windows.vals
      ensures r.Some? ==> r.value == windows.vals[NatToString(id)]
    {
      windows.Get(NatToString(id))
    }

    /** `getWindows()`: every stored handle, in map order. */
    function GetWindows(): (r: seq<Handle>)
      reads this
      requires windows.Valid()
      ensures |r| == |windows.keys|
      ensures forall i :: 0 <= i < |r| ==> r[i] == windows.vals[windows.keys[i]]
    {
      windows.Values()
    }

    /** `getMetadata(id)`: the record under the id's decimal spelling. */
    function GetMetadata(id: nat): (r: Option<Props>)
      reads this
      ensures r.Some? <==> NatToString(id) in metadata.vals
      ensures r.Some? ==> r.value == metadata.vals[NatToString(id)]
    {
      metadata.Get(NatToString(id))
    }
  }

  /** Replacing a record by one with the same customId keeps every record under its own id. */
  lemma KeyedAfterUpdate(m: OMap<string, Props>, k: string, p: Props)
    requires KeyedByOwnId(m) && k in m.vals && p.customId == m.vals[k].customId
    ensures KeyedByOwnId(m.Set(k, p))
  {
    forall c | c in m.Set(k, p).vals
      ensures m.Set(k, p).vals[c].customId == Some(c)
    {
      if c != k {
        assert m.Set(k, p).Get(c) == m.Get(c);
      }
    }
  }

  /** Deleting a key keeps every remaining record under its own id. */
  lemma KeyedAfterDelete(m: OMap<string, Props>, k: string)
    requires m.Valid() && KeyedByOwnId(m)
    ensures KeyedByOwnId(m.Delete(k))
  {
    forall c | c in m.Delete(k).vals
      ensures m.Delete(k).vals[c].customId == Some(c)
    {
      assert m.Delete(k).Get(c) == m.Get(c);
    }
  }

  /**
   * A metadata map keyed by custom ids that start with a letter (other than the 'I' of
   * "Infinity") never yields a last active window: Number(key) is NaN for every key.
   */
  lemma LegacyLastActiveMissesCustomKeys(m: OMap<string, Props>, windows: OMap<string, Handle>)
    requires m.Valid()
    requires forall k :: k in m.keys ==> LetterLed(k)
    ensures Resolve(ChosenKey(FocusEntriesOf(m)), windows) == None
  {
    var es := FocusEntriesOf(m);
    var s := Scan(es);
    if s.chosen.Some? {
      assert es[s.chosen.value].key in m.keys;
    }
  }

  /**
   * The two lookups side by side: for a map keyed by letter-led custom ids whose record under `k`
   * was focused after every other active one, the code as written returns nothing, while the
   * lookup by key returns the window stored under `k`.
   */
  lemma LastActiveByKeyFindsCustomKey(m: OMap<string, Props>, windows: OMap<string, Handle>, k: string)
    requires m.Valid() && forall c :: c in m.keys ==> LetterLed(c)
    requires k in m.vals && Candidate(FocusEntry(k, m.vals[k].lastFocus, m.vals[k].state))
    requires forall c :: c in m.vals && c != k && Candidate(FocusEntry(c, m.vals[c].lastFocus, m.vals[c].state)) ==>
               m.vals[c].lastFocus.value < m.vals[k].lastFocus.value
    ensures Resolve(ChosenKey(FocusEntriesOf(m)), windows) == None
    ensures LastActiveByKey(FocusEntriesOf(m), windows) == windows.Get(k)
  {
    LegacyLastActiveMissesCustomKeys(m, windows);
    var es := FocusEntriesOf(m);
    assert k in m.keys;
    var i :| 0 <= i < |m.keys| && m.keys[i] == k;
    forall j | 0 <= j < |es| && j != i && Candidate(es[j])
      ensures es[j].lastFocus.value < es[i].lastFocus.value
    {
      assert m.keys[j] in m.vals && m.keys[j] != k;
    }
    LastActiveByKeyLatest(es, windows, i);
  }
}
