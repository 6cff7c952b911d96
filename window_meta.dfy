/**
 * Window metadata: the WindowState / WindowType enums of shared/enums/ipc.enums.ts, the
 * WindowMetadataProps record, and the WindowMetaData class that owns one such record.
 */
module WindowMeta {
  import opened Common
  import opened OrderedMap

  datatype WindowState = Active | Hidden | Closed

  datatype WindowType = MainWindow | ChildWindow | PopupWindow | ModalWindow

  /** Electron's Rectangle. */
  datatype Rect = Rect(x: int, y: int, width: int, height: int)

  /** WindowMetadataProps: every field optional (None = absent). */
  datatype Props = Props(
    customId: Option<string>,
    workspaceId: Option<string>,
    route: Option<string>,
    wtype: Option<WindowType>,
    createdAt: Option<int>,
    state: Option<WindowState>,
    lastFocus: Option<int>,
    bounds: Option<Rect>,
    maximized: Option<bool>,
    fullscreen: Option<bool>)

  /** The three fields the WindowMetaData constructor defaults are present. */
  predicate Complete(p: Props) {
    p.createdAt.Some? && p.state.Some? && p.lastFocus.Some?
  }

  /**
   * `{createdAt: now, state: ACTIVE, lastFocus: now, ...init}`: the defaults, each overridden
   * by the corresponding field of `init` when that field is present.
   */
  function WithDefaults(init: Props, now: int): (p: Props)
    ensures Complete(p)
    ensures init.createdAt.Some? ==> p.createdAt == init.createdAt
    ensures init.state.Some? ==> p.state == init.state
    ensures init.lastFocus.Some? ==> p.lastFocus == init.lastFocus
    ensures init.createdAt.None? ==> p.createdAt == Some(now)
    ensures init.state.None? ==> p.state == Some(Active)
    ensures init.lastFocus.None? ==> p.lastFocus == Some(now)
    ensures p.(createdAt := init.createdAt, state := init.state, lastFocus := init.lastFocus) == init
  {
    init.(createdAt := Some(init.createdAt.GetOr(now)),
          state := Some(init.state.GetOr(Active)),
          lastFocus := Some(init.lastFocus.GetOr(now)))
  }

  /** A record that already has the defaulted fields passes through the constructor unchanged. */
  lemma WithDefaultsOfComplete(p: Props, now: int)
    requires Complete(p)
    ensures WithDefaults(p, now) == p
  {
  }

  /**
   * WindowMetaData. `props` is the private record; `lastFocus` and `state` are the properties
   * that code outside the class reads and writes directly on the instance, which are not the
   * ones inside `props`, and likewise `customId`, which no code ever writes, so that reading it
   * gives undefined.
   */
  class WindowMetaData {
    var props: Props
    var lastFocus: Option<int>
    var state: Option<WindowState>
    var customId: Option<string>

    constructor (init: Props, now: int)
      ensures props == WithDefaults(init, now)
      ensures lastFocus == None && state == None && customId == None
    {
      props := WithDefaults(init, now);
      lastFocus := None;
      state := None;
      customId := None;
    }

    /** `toJSON()`: the props record itself. */
    function ToJson(): (r: Props)
      reads this
      ensures r == props
    {
      props
    }

    /** The `data` getter: the props record itself. */
    function Data(): (r: Props)
      reads this
      ensures r == props
    {
      props
    }

    /** The `id` getter: customId, or '' when it is absent or empty. */
    function Id(): (r: string)
      reads this
      ensures Truthy(props.customId) ==> r == props.customId.value
      ensures !Truthy(props.customId) ==> r == ""
    {
      OrElse(props.customId, "")
    }

    /** The `route` getter: route, or '' when it is absent or empty. */
    function Route(): (r: string)
      reads this
      ensures Truthy(props.route) ==> r == props.route.value
      ensures !Truthy(props.route) ==> r == ""
    {
      OrElse(props.route, "")
    }

    /** `touch()`: focus time is now and the window is active; nothing else changes. */
    method Touch(now: int)
      modifies this
      ensures props == old(props).(lastFocus := Some(now), state := Some(Active))
      ensures Complete(old(props)) ==> Complete(props)
      ensures lastFocus == old(lastFocus) && state == old(state) && customId == old(customId)
    {
      props := props.(lastFocus := Some(now), state := Some(Active));
    }

    /** `updateBounds(b)`: only the bounds change. */
    method UpdateBounds(b: Rect)
      modifies this
      ensures props == old(props).(bounds := Some(b))
      ensures Complete(old(props)) ==> Complete(props)
      ensures lastFocus == old(lastFocus) && state == old(state) && customId == old(customId)
    {
      props := props.(bounds := Some(b));
    }

    /** `setState(s)`: only the state changes. */
    method SetState(s: WindowState)
      modifies this
      ensures props == old(props).(state := Some(s))
      ensures Complete(old(props)) ==> Complete(props)
      ensures lastFocus == old(lastFocus) && state == old(state) && customId == old(customId)
    {
      props := props.(state := Some(s));
    }
  }

  /** The records held by a map of WindowMetaData objects, key by key, in the map's order. */
  function PropsOf<K(==,!new)>(c: OMap<K, WindowMetaData>): (v: OMap<K, Props>)
    reads c.vals.Values
    requires c.Valid()
    ensures v.Valid() && v.keys == c.keys
    ensures forall k :: k in c.vals ==> k in v.vals && v.vals[k] == c.vals[k].props
    ensures forall k :: k in v.vals ==> k in c.vals
  {
    OMap(c.keys, map k | k in c.vals :: c.vals[k].props)
  }

  lemma PropsOfSet<K(!new)>(c: OMap<K, WindowMetaData>, k: K, m: WindowMetaData)
    requires c.Valid()
    ensures PropsOf(c.Set(k, m)) == PropsOf(c).Set(k, m.props)
  {
    assert PropsOf(c.Set(k, m)).vals == PropsOf(c).Set(k, m.props).vals;
  }

  lemma PropsOfDelete<K(!new)>(c: OMap<K, WindowMetaData>, k: K)
    requires c.Valid()
    ensures PropsOf(c.Delete(k)) == PropsOf(c).Delete(k)
  {
    assert PropsOf(c.Delete(k)).vals == PropsOf(c).Delete(k).vals;
  }
}
