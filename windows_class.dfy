/**
 * The WindowsManager of classes/windows.class.ts: BrowserWindows in one map keyed by the id the
 * caller chooses. Each window's 'closed' listener deletes the id it captured at creation.
 */
module WindowsClass {
  import opened Common
  import opened OrderedMap
  import opened WindowCommon

  /** This registry's WindowOptions. `parent` is not modelled; the frame is always off. */
  datatype ClassOptions = ClassOptions(
    route: Option<string>,
    query: Option<string>,
    hash: Option<string>,
    width: Option<int>,
    height: Option<int>,
    modal: Option<bool>)

  /** The BrowserWindow createWindow constructs: 800x600, frameless, shown at once only when modal. */
  function ClassHandle(id: nat, o: ClassOptions): (h: Handle)
    ensures h.id == id && !h.frame
    ensures h.width == (if o.width.Some? then o.width.value else 800)
    ensures h.height == (if o.height.Some? then o.height.value else 600)
    ensures h.show == h.modal == (o.modal == Some(true))
  {
    NewHandle(id, NoOptions.(width := o.width, height := o.height, modal := o.modal))
  }

  /** `${scheme}://index.html/${options.route ?? ''}`: the route as given, nothing stripped; query and hash unused. */
  function ClassUrl(scheme: string, o: ClassOptions): (u: Url)
    ensures u.RouteUrl? && u.scheme == scheme
    ensures o.route.Some? ==> u.Text() == scheme + "://index.html/" + o.route.value
    ensures o.route.None? ==> u.Text() == scheme + "://index.html/"
  {
    RouteUrl(scheme, o.route.GetOr(""))
  }

  /**
   * For a route that does not start with "/", this registry loads the same URL as the two
   * WindowManagers; for one that does, it keeps the slash the WindowManagers strip.
   */
  lemma ClassUrlAgainstPageUrl(scheme: string, route: string)
    requires |route| > 0
    ensures route[0] != '/' ==>
              ClassUrl(scheme, ClassOptions(Some(route), None, None, None, None, None)).Text()
              == PageUrl(scheme, Some(route), None, None).Text()
    ensures route[0] == '/' ==>
              ClassUrl(scheme, ClassOptions(Some(route), None, None, None, None, None)).Text()
              == PageUrl(scheme, Some(route), None, None).Text()[..|scheme| + 14] + route
  {
    var base := scheme + "://index.html";
    var page := PageUrl(scheme, Some(route), None, None).Text();
    assert page == base + ("/" + StripLeading(route, '/')) + "" + "";
    if route[0] == '/' {
      assert page[..|scheme| + 14] == base + "/";
    }
  }

  class WindowsManager {
    var scheme: string
    var windows: OMap<string, Handle>
    /** Every call made on a BrowserWindow, oldest first. */
    var calls: seq<WinCall>
    /** The id Electron gives the next BrowserWindow. */
    var nextId: nat
    /** For each window made here, the id its 'closed' listener captured. */
    var wired: map<nat, string>

    ghost predicate Valid()
      reads this
    {
      windows.Valid() && forall w :: w in wired ==> w < nextId
    }

    /** `new WindowsManager(customScheme)`, with Electron's next window id. */
    constructor (customScheme: Option<string>, firstId: nat)
      ensures Valid() && scheme == SchemeOf(customScheme)
      ensures windows == Empty() && calls == [] && nextId == firstId && wired == map[]
    {
      scheme := SchemeOf(customScheme);
      windows := Empty();
      calls := [];
      nextId := firstId;
      wired := map[];
    }

    /**
     * `createWindow(id, options)`: an id already in the map has its window focused and returned,
     * and nothing else changes; otherwise a new window is stored under the id, its URL loaded and
     * its 'closed' listener wired to the id.
     */
    method CreateWindow(id: string, options: ClassOptions) returns (win: Handle)
      requires Valid()
      modifies this
      ensures Valid() && scheme == old(scheme)
      ensures id in old(windows.vals) ==>
                win == old(windows.vals[id]) && calls == old(calls) + [Focus(win.id)] &&
                windows == old(windows) && nextId == old(nextId) && wired == old(wired)
      ensures id !in old(windows.vals) ==>
                win == ClassHandle(old(nextId), options) && nextId == old(nextId) + 1 &&
                windows == old(windows).Set(id, win) &&
                calls == old(calls) + [Created(win), LoadUrl(win.id, ClassUrl(scheme, options))] &&
                wired == old(wired)[win.id := id]
      ensures windows.Get(id) == Some(win)
    {
      if windows.Has(id) {
        win := windows.vals[id];
        calls := calls + [Focus(win.id)];
        return;
      }
      win := ClassHandle(nextId, options);
      nextId := nextId + 1;
      windows := windows.Set(id, win);
      calls := calls + [Created(win), LoadUrl(win.id, ClassUrl(scheme, options))];
      wired := wired[win.id := id];
      windows := windows.Set(id, win);
    }

    /** The 'ready-to-show' listener: shows the window. */
    method OnReadyToShow(w: nat)
      requires w in wired
      modifies this`calls
      ensures calls == old(calls) + [ShowWin(w)]
    {
      calls := calls + [ShowWin(w)];
    }

    /**
     * The 'closed' listener of window `w`: deletes the id it captured, whichever window is stored
     * under that id now.
     */
    method OnClosed(w: nat)
      requires Valid() && w in wired
      modifies this`windows
      ensures Valid()
      ensures windows == old(windows).Delete(wired[w])
    {
      windows := windows.Delete(wired[w]);
    }

    /**
     * The 'closed' listener as evidently intended: it deletes the id it captured only while its
     * own window is the one stored there, so a successor created under the same id stays.
     */
    method OnClosedOwn(w: nat)
      requires Valid() && w in wired
      modifies this`windows
      ensures Valid()
      ensures var h := old(windows.Get(wired[w]));
              h.Some? && h.value.id == w ==> windows == old(windows).Delete(wired[w])
      ensures var h := old(windows.Get(wired[w]));
              !(h.Some? && h.value.id == w) ==> windows == old(windows)
    {
      var h := windows.Get(wired[w]);
      if h.Some? && h.value.id == w {
        windows := windows.Delete(wired[w]);
      }
    }

    /** `closeWindow(id)`: closes the stored window, if any, and deletes the id in every case. */
    method CloseWindow(id: string)
      requires Valid()
      modifies this`windows, this`calls
      ensures Valid()
      ensures windows == old(windows).Delete(id)
      ensures calls == if id in old(windows.vals) then old(calls) + [CloseWin(old(windows.vals[id]).id)] else old(calls)
    {
      if id in windows.vals {
        calls := calls + [CloseWin(windows.vals[id].id)];
      }
      windows := windows.Delete(id);
    }

    /** `getWindow(id)`: the stored window, if any. */
    function GetWindow(id: string): (r: Option<Handle>)
      reads this
      ensures r.Some? <==> id in windows.vals
      ensures r.Some? ==> r.value == windows.vals[id]
    {
      windows.Get(id)
    }
  }

  /**
   * The 'closed' listener captured the id, not the window: once a window was replaced under its
   * id (closed and created again), the first window's listener deletes its successor's entry.
   */
  lemma StaleClosedListenerDropsSuccessor(windows: OMap<string, Handle>, wired: map<nat, string>,
                                          w: nat, id: string, h: Handle)
    requires windows.Valid() && w in wired && wired[w] == id
    requires windows.Get(id) == Some(h) && h.id != w
    ensures windows.Delete(wired[w]).Get(id) == None
    ensures |windows.Delete(wired[w]).keys| == |windows.keys| - 1
  {
    assert id in windows.keys;
    WithoutLength(windows.keys, id);
  }

  /**
   * A window closed by id and created again under the same id, after which the first window's
   * 'closed' event fires: as written the successor is no longer stored; with the listener that
   * checks its own window, the successor stays.
   */
  method ReopenThenStaleClosed(id: string, options: ClassOptions, firstId: nat)
    returns (first: Handle, asWritten: Option<Handle>, successor: Handle, intended: Option<Handle>)
    ensures first.id == firstId && successor.id == firstId + 1
    ensures asWritten == None
    ensures intended == Some(successor)
  {
    var m := new WindowsManager(None, firstId);
    first := m.CreateWindow(id, options);
    m.CloseWindow(id);
    var second := m.CreateWindow(id, options);
    m.OnClosed(first.id);
    asWritten := m.GetWindow(id);

    var m' := new WindowsManager(None, firstId);
    var first' := m'.CreateWindow(id, options);
    m'.CloseWindow(id);
    successor := m'.CreateWindow(id, options);
    m'.OnClosedOwn(first'.id);
    intended := m'.GetWindow(id);
  }
}
