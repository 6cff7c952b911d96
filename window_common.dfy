/**
 * What the three window registries share: BrowserWindow handles and the calls made on them, the
 * creation options, the load-URL rule, and the two scans over a metadata map (the most recently
 * focused active entry, and the first entry with a given custom id).
 */
module WindowCommon {
  import opened Common
  import opened OrderedMap
  import opened WindowMeta

  /** A BrowserWindow: Electron's numeric id and the construction options that were given. */
  datatype Handle = Handle(id: nat, width: int, height: int, show: bool, modal: bool, frame: bool)

  /** A call made on a BrowserWindow, in the order the registry makes them. */
  datatype WinCall =
    | Created(handle: Handle)                              // new BrowserWindow(...)
    | Focus(win: nat)                                      // win.focus()
    | LoadUrl(win: nat, url: Url)                          // win.loadURL(url.Text())
    | ShowWin(win: nat)                                    // win.show()
    | CloseWin(win: nat)                                   // win.close()
    | Send(win: nat, channel: string, payload: Value)      // win.webContents.send(channel, payload)

  /** A closeWindow argument: a custom id (a string) or a window id (a number). */
  datatype WinRef = ByCustomId(customId: string) | ByNumber(n: nat)

  /** One send per handle, in order. */
  function SendAll(hs: seq<Handle>, channel: string, payload: Value): (r: seq<WinCall>)
    ensures |r| == |hs|
    ensures forall i :: 0 <= i < |hs| ==> r[i] == Send(hs[i].id, channel, payload)
  {
    seq(|hs|, i requires 0 <= i < |hs| => Send(hs[i].id, channel, payload))
  }

  /** WindowOptions: every field optional. `bounds` is accepted and never read. */
  datatype WindowOptions = WindowOptions(
    route: Option<string>,
    query: Option<string>,
    hash: Option<string>,
    width: Option<int>,
    height: Option<int>,
    modal: Option<bool>,
    frame: Option<bool>,
    wtype: Option<WindowType>,
    bounds: Option<Rect>)

  const NoOptions := WindowOptions(None, None, None, None, None, None, None, None, None)

  const DefaultScheme: string := "capacitor-electron"

  /** The constructor's `if (customScheme) this.customeScheme = customScheme`. */
  function SchemeOf(custom: Option<string>): (s: string)
    ensures Truthy(custom) ==> s == custom.value
    ensures !Truthy(custom) ==> s == DefaultScheme
  {
    OrElse(custom, DefaultScheme)
  }

  /** The BrowserWindow the two WindowManagers construct: 800x600, hidden and frameless unless asked. */
  function NewHandle(id: nat, o: WindowOptions): (h: Handle)
    ensures h.id == id
    ensures h.width == (if o.width.Some? then o.width.value else 800)
    ensures h.height == (if o.height.Some? then o.height.value else 600)
    ensures h.show == h.modal == (o.modal == Some(true))
    ensures h.frame == (o.frame == Some(true))
  {
    Handle(id, o.width.GetOr(800), o.height.GetOr(600), o.modal.GetOr(false), o.modal.GetOr(false),
           o.frame.GetOr(false))
  }

  /**
   * A load URL, recorded by the parts it is built from: the two WindowManagers' form (scheme,
   * route, query, hash) and the Windows class's form (scheme and route). `Text()` is the string
   * loadURL receives.
   */
  datatype Url =
    | PageUrl(scheme: string, route: Option<string>, query: Option<string>, hash: Option<string>)
    | RouteUrl(scheme: string, routeOrEmpty: string)
  {
    function Text(): (t: string)
      ensures PageUrl? ==> t == BuildUrl(scheme, route, query, hash)
      ensures RouteUrl? ==> t == scheme + "://index.html/" + routeOrEmpty
    {
      match this
      case PageUrl(s, r, q, h) => BuildUrl(s, r, q, h)
      case RouteUrl(s, r) => s + "://index.html/" + r
    }
  }

  /** One URL component: empty when the option is absent or empty, else the option less one leading `c`. */
  function Component(s: Option<string>, c: char): string {
    if Truthy(s) then StripLeading(s.value, c) else ""
  }

  /**
   * The load URL of the two WindowManagers: scheme + "://index.html", then "/" + route less one
   * leading "/", then query less one leading "?", then hash less one leading "#"; the separators
   * are not put back in front of query and hash.
   */
  function BuildUrl(scheme: string, route: Option<string>, query: Option<string>, hash: Option<string>): (url: string)
    ensures StartsWith(url, scheme + "://index.html")
    ensures Truthy(route) ==> |url| > |scheme| + 13 && url[|scheme| + 13] == '/'
    ensures !Truthy(route) && !Truthy(query) && !Truthy(hash) ==> url == scheme + "://index.html"
  {
    var base := scheme + "://index.html";
    var r := if Truthy(route) then "/" + StripLeading(route.value, '/') else "";
    var full := base + r + Component(query, '?') + Component(hash, '#');
    assert full[..|base|] == base;
    full
  }

  /** Stripping one leading separator: a component written with or without it is the same. */
  lemma StripOneSeparator(s: string, c: char)
    requires |s| > 0 && s[0] != c
    ensures StripLeading([c] + s, c) == StripLeading(s, c) == s
  {
    assert ([c] + s)[1..] == s;
  }

  /** One leading separator is optional: with or without it, a route, query or hash gives the same URL. */
  lemma UrlSeparatorOptional(scheme: string, route: string, query: string, hash: string)
    requires |route| > 0 && route[0] != '/'
    requires |query| > 0 && query[0] != '?'
    requires |hash| > 0 && hash[0] != '#'
    ensures BuildUrl(scheme, Some("/" + route), Some("?" + query), Some("#" + hash))
            == BuildUrl(scheme, Some(route), Some(query), Some(hash))
            == scheme + "://index.html/" + route + query + hash
  {
    StripOneSeparator(route, '/');
    StripOneSeparator(query, '?');
    StripOneSeparator(hash, '#');
  }

  /** Only one separator is stripped: a route "//a" keeps a double slash in the URL. */
  lemma UrlStripsOnlyOne(scheme: string)
    ensures BuildUrl(scheme, Some("//a"), None, None) == scheme + "://index.html//a"
  {
    assert StripLeading("//a", '/') == "/a";
  }

  // ---------------------------------------------------------------------------
  // getLastActiveWindow: the scan over the metadata entries.
  // ---------------------------------------------------------------------------

  /** What the scan reads of one metadata entry: its key, `meta.lastFocus` and `meta.state`. */
  datatype FocusEntry = FocusEntry(key: string, lastFocus: Option<int>, state: Option<WindowState>)

  /** The scan's variables: `lastTime`, and which entry set `lastId` (None while it is null). */
  datatype ScanState = ScanState(time: int, chosen: Option<nat>)

  /** `meta.lastFocus > lastTime && meta.state === 'active'`; an undefined lastFocus never compares greater. */
  predicate Beats(e: FocusEntry, time: int) {
    e.lastFocus.Some? && e.lastFocus.value > time && e.state == Some(Active)
  }

  /** A candidate at all: active and focused after time 0, where the scan starts. */
  predicate Candidate(e: FocusEntry) {
    Beats(e, 0)
  }

  /** The loop of getLastActiveWindow over the first `n` entries of `es`, in iteration order. */
  function ScanUpTo(es: seq<FocusEntry>, n: nat): (r: ScanState)
    requires n <= |es|
    ensures r.chosen.Some? ==> r.chosen.value < n
    decreases n
  {
    if n == 0 then ScanState(0, None)
    else
      var prev := ScanUpTo(es, n - 1);
      if Beats(es[n - 1], prev.time) then ScanState(es[n - 1].lastFocus.value, Some(n - 1)) else prev
  }

  /**
   * The entry the scan over the first `n` entries ends on is the first candidate with the
   * greatest lastFocus; with no candidate it ends where it started.
   */
  lemma {:induction false} ScanUpToSpec(es: seq<FocusEntry>, n: nat)
    requires n <= |es|
    ensures var r := ScanUpTo(es, n);
            (r.chosen.None? <==> forall i :: 0 <= i < n ==> !Candidate(es[i])) &&
            (r.chosen.None? ==> r.time == 0) &&
            (r.chosen.Some? ==>
              Candidate(es[r.chosen.value]) && es[r.chosen.value].lastFocus == Some(r.time) &&
              (forall j :: 0 <= j < n && Candidate(es[j]) ==> es[j].lastFocus.value <= r.time) &&
              (forall j :: 0 <= j < r.chosen.value && Candidate(es[j]) ==> es[j].lastFocus.value < r.time))
    decreases n
  {
    if n > 0 {
      ScanUpToSpec(es, n - 1);
    }
  }

  /** The scan over all of `es`. */
  function Scan(es: seq<FocusEntry>): (r: ScanState)
    ensures r.chosen.None? <==> forall i :: 0 <= i < |es| ==> !Candidate(es[i])
    ensures r.chosen.None? ==> r.time == 0
    ensures r.chosen.Some? ==>
              r.chosen.value < |es| && Candidate(es[r.chosen.value]) &&
              es[r.chosen.value].lastFocus == Some(r.time) &&
              (forall j :: 0 <= j < |es| && Candidate(es[j]) ==> es[j].lastFocus.value <= r.time) &&
              (forall j :: 0 <= j < r.chosen.value && Candidate(es[j]) ==> es[j].lastFocus.value < r.time)
  {
    ScanUpToSpec(es, |es|);
    ScanUpTo(es, |es|)
  }

  /** The key the scan ends on, if any. */
  function ChosenKey(es: seq<FocusEntry>): (k: Option<string>)
    ensures k.Some? <==> exists i :: 0 <= i < |es| && Candidate(es[i])
  {
    var s := Scan(es);
    if s.chosen.Some? then Some(es[s.chosen.value].key) else None
  }

  /**
   * `lastId ? this.windows.get(`${lastId}`) : undefined` with `lastId = Number(key)`: a key that
   * does not read as a non-zero number gives undefined; otherwise the handle stored under the
   * number's canonical spelling.
   */
  function Resolve(key: Option<string>, windows: OMap<string, Handle>): (r: Option<Handle>)
    ensures key.None? ==> r.None?
    ensures key.Some? && ParseNumber(key.value).Some? && ParseNumber(key.value).value != 0 ==>
              r == windows.Get(NatToString(ParseNumber(key.value).value))
    ensures key.Some? && (ParseNumber(key.value).None? || ParseNumber(key.value) == Some(0)) ==> r.None?
  {
    if key.None? then None
    else
      match ParseNumber(key.value)
      case None => None
      case Some(n) => if n == 0 then None else windows.Get(NatToString(n))
  }

  /** A key that is the decimal spelling of a non-zero window id resolves to the handle under that very key. */
  lemma ResolveCanonical(n: nat, windows: OMap<string, Handle>)
    requires n != 0
    ensures Resolve(Some(NatToString(n)), windows) == windows.Get(NatToString(n))
  {
    ParseFormatRoundTrip(n);
  }

  /** A custom id is not a window id: "main" resolves to nothing, whatever is stored under it. */
  lemma ResolveCustomId(windows: OMap<string, Handle>)
    ensures Resolve(Some("main"), windows) == None
  {
    assert !IsDigit("main"[0]);
  }

  /** Leading zeros are dropped: the key "007" resolves to the handle under "7", not under "007". */
  lemma ResolveLeadingZeros(windows: OMap<string, Handle>)
    ensures Resolve(Some("007"), windows) == windows.Get("7")
  {
    assert AllDigits("007");
    assert DigitsValue("007") == 7 by {
      assert "007"[..2] == "00" && "00"[..1] == "0" && "0"[..0] == "";
    }
    assert NatToString(7) == "7";
  }

  /**
   * getLastActiveWindow as evidently intended for maps keyed by custom id: the handle stored under
   * the key the scan ends on, looked up as it is rather than through Number.
   */
  function LastActiveByKey(es: seq<FocusEntry>, windows: OMap<string, Handle>): (r: Option<Handle>)
    ensures r.Some? ==> exists i :: 0 <= i < |es| && Candidate(es[i]) && windows.Get(es[i].key) == r
  {
    var s := Scan(es);
    if s.chosen.Some? then windows.Get(es[s.chosen.value].key) else None
  }

  /**
   * When one active entry was focused after every other active one, the intended lookup returns
   * the handle stored under that entry's key, whatever the key looks like.
   */
  lemma LastActiveByKeyLatest(es: seq<FocusEntry>, windows: OMap<string, Handle>, i: nat)
    requires i < |es| && Candidate(es[i])
    requires forall j :: 0 <= j < |es| && j != i && Candidate(es[j]) ==> es[j].lastFocus.value < es[i].lastFocus.value
    ensures LastActiveByKey(es, windows) == windows.Get(es[i].key)
  {
    var s := Scan(es);
    assert s.chosen.Some?;
  }

  // ---------------------------------------------------------------------------
  // findWindowByCustomId: the first entry whose `meta.customId` is the given id.
  // ---------------------------------------------------------------------------

  /** What the search reads of one metadata entry: its key and `meta.customId`. */
  datatype IdEntry = IdEntry(key: string, customId: Option<string>)

  /** The key of the first entry whose customId is `customId`, if any. */
  function FirstWithId(es: seq<IdEntry>, customId: string): (r: Option<nat>)
    ensures r.None? <==> forall i :: 0 <= i < |es| ==> es[i].customId != Some(customId)
    ensures r.Some? ==> r.value < |es| && es[r.value].customId == Some(customId) &&
                        forall j :: 0 <= j < r.value ==> es[j].customId != Some(customId)
    decreases |es|
  {
    if es == [] then None
    else if es[0].customId == Some(customId) then Some(0)
    else
      var r := FirstWithId(es[1..], customId);
      assert forall j :: 1 <= j < |es| ==> es[j] == es[1..][j - 1];
      if r.Some? then Some(r.value + 1) else None
  }

  /**
   * The loop returns `windows.get(key)` for the first matching entry (which may be undefined when
   * no handle is stored under that key) and undefined when no entry matches.
   */
  function FindSpec(es: seq<IdEntry>, customId: string, windows: OMap<string, Handle>): (r: Option<Handle>)
    ensures (forall i :: 0 <= i < |es| ==> es[i].customId != Some(customId)) ==> r.None?
  {
    match FirstWithId(es, customId)
    case None => None
    case Some(i) => windows.Get(es[i].key)
  }
}
