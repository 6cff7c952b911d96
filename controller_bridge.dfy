/**
 * The renderer-side controller bridge of rt/electron-rt.ts: a registry of per-controller API
 * records built from a catalogue of the main process's controller classes. Each API method
 * invokes an IPC channel named after its subsystem, class and method; controllers that are
 * EventEmitters also get listener bookkeeping that tells the main process which event types the
 * renderer is subscribed to.
 *
 * ipcRenderer is a log of the messages sent to the main process plus the set of attached
 * (channel, handler) registrations; handlers are told apart by a counter.
 */
module ControllerBridge {
  import opened Common
  import opened OrderedMap

  /** A controller class's prototype: its own property names, in order, and whether it extends EventEmitter. */
  datatype Proto = Proto(names: seq<string>, isEmitter: bool)

  /** The loaded controller modules: subsystem -> class key -> the prototype, None when the export has none. */
  type Catalogue = OMap<string, OMap<string, Option<Proto>>>

  /** The members of a controller API: method name -> invoke channel, and whether listener methods were added. */
  datatype ClassApi = ClassApi(invokers: OMap<string, string>, emitter: bool)

  /** One entry of an API's `listeners` record: the event type and the handler attached for it. */
  datatype Listener = Listener(ltype: string, handler: nat)

  /** What the renderer sends to the main process. */
  datatype RendererMsg =
    | SendMsg(channel: string, arg: string)            // ipcRenderer.send(channel, type)
    | InvokeMsg(channel: string, args: seq<Value>)     // ipcRenderer.invoke(channel, ...args)

  // ---------------------------------------------------------------------------
  // Channel names.
  // ---------------------------------------------------------------------------

  function InvokeChannel(s: string, c: string, fn: string): string {
    s + "." + c + "." + fn
  }

  function EventChannel(s: string, c: string, t: string): string {
    "event-" + s + ":" + c + ":" + t
  }

  function AddChannel(s: string, c: string): string {
    "event-add-" + s + ":" + c
  }

  function RemoveChannel(s: string, c: string): string {
    "event-remove-" + s + ":" + c
  }

  predicate NoChar(s: string, ch: char) {
    forall i :: 0 <= i < |s| ==> s[i] != ch
  }

  /** A key that can appear in a channel name without ambiguity: no ':' and no '.'. */
  predicate Plain(s: string) {
    NoChar(s, ':') && NoChar(s, '.')
  }

  /** Splitting at the first separator: a prefix free of it is determined by the whole. */
  lemma SplitAt(a: string, b: string, x: string, y: string, sep: char)
    requires NoChar(a, sep) && NoChar(x, sep)
    requires a + [sep] + b == x + [sep] + y
    ensures a == x && b == y
  {
    var w := a + [sep] + b;
    assert |a| == |x| by {
      assert w[|a|] == sep && w[|x|] == sep;
    }
    assert a == w[..|a|] == x;
    assert b == w[|a| + 1..] == y;
  }

  /** For plain subsystem and class keys, an invoke channel names one method of one controller. */
  lemma InvokeChannelInjective(s: string, c: string, f: string, s': string, c': string, f': string)
    requires Plain(s) && Plain(c) && Plain(s') && Plain(c')
    requires InvokeChannel(s, c, f) == InvokeChannel(s', c', f')
    ensures s == s' && c == c' && f == f'
  {
    assert InvokeChannel(s, c, f) == s + ['.'] + (c + ['.'] + f);
    assert InvokeChannel(s', c', f') == s' + ['.'] + (c' + ['.'] + f');
    SplitAt(s, c + ['.'] + f, s', c' + ['.'] + f', '.');
    SplitAt(c, f, c', f', '.');
  }

  /** For plain keys, the subscribe channel names one controller. */
  lemma AddChannelInjective(s: string, c: string, s': string, c': string)
    requires Plain(s) && Plain(c) && Plain(s') && Plain(c')
    requires AddChannel(s, c) == AddChannel(s', c')
    ensures s == s' && c == c'
  {
    var p := "event-add-";
    assert AddChannel(s, c) == p + (s + [':'] + c);
    assert AddChannel(s', c') == p + (s' + [':'] + c');
    assert s + [':'] + c == AddChannel(s, c)[|p|..];
    assert s' + [':'] + c' == AddChannel(s', c')[|p|..];
    SplitAt(s, c, s', c', ':');
  }

  /** For plain keys, the unsubscribe channel names one controller. */
  lemma RemoveChannelInjective(s: string, c: string, s': string, c': string)
    requires Plain(s) && Plain(c) && Plain(s') && Plain(c')
    requires RemoveChannel(s, c) == RemoveChannel(s', c')
    ensures s == s' && c == c'
  {
    var p := "event-remove-";
    assert RemoveChannel(s, c) == p + (s + [':'] + c);
    assert RemoveChannel(s', c') == p + (s' + [':'] + c');
    assert s + [':'] + c == RemoveChannel(s, c)[|p|..];
    assert s' + [':'] + c' == RemoveChannel(s', c')[|p|..];
    SplitAt(s, c, s', c', ':');
  }

  /** A subscribe channel is never an unsubscribe channel. */
  lemma AddIsNotRemove(s: string, c: string, s': string, c': string)
    ensures AddChannel(s, c) != RemoveChannel(s', c')
  {
    assert AddChannel(s, c)[6] == 'a';
    assert RemoveChannel(s', c')[6] == 'r';
  }

  // ---------------------------------------------------------------------------
  // The catalogue and the API records built from it.
  // ---------------------------------------------------------------------------

  /** `Object.getOwnPropertyNames(prototype).filter(m => m !== "constructor")`. */
  function MethodNames(names: seq<string>): (r: seq<string>)
    ensures forall x :: x in r <==> x in names && x != "constructor"
    ensures |r| <= |names|
    ensures Distinct(names) ==> Distinct(r)
  {
    if names == [] then []
    else
      var rest := MethodNames(names[1..]);
      if names[0] == "constructor" then rest
      else
        assert Distinct(names) ==> names[0] !in names[1..] && Distinct(names[1..]);
        [names[0]] + rest
  }

  /** The names keep the prototype's order: one more own name is appended, unless it is the constructor. */
  lemma {:induction false} MethodNamesSnoc(names: seq<string>, x: string)
    ensures MethodNames(names + [x]) == MethodNames(names) + (if x == "constructor" then [] else [x])
  {
    if names != [] {
      assert (names + [x])[1..] == names[1..] + [x];
      MethodNamesSnoc(names[1..], x);
    }
  }

  /** The invokers of the first `i` method names, set one after the other. */
  function InvokerMap(s: string, c: string, fns: seq<string>, i: nat): (r: OMap<string, string>)
    requires i <= |fns|
    decreases i
  {
    if i == 0 then Empty() else InvokerMap(s, c, fns, i - 1).Set(fns[i - 1], InvokeChannel(s, c, fns[i - 1]))
  }

  lemma {:induction false} InvokerMapValid(s: string, c: string, fns: seq<string>, i: nat)
    requires i <= |fns|
    ensures InvokerMap(s, c, fns, i).Valid()
    decreases i
  {
    if i > 0 {
      InvokerMapValid(s, c, fns, i - 1);
    }
  }

  /** Exactly the listed methods have an invoker, each on its own channel. */
  lemma {:induction false} InvokerMapAt(s: string, c: string, fns: seq<string>, i: nat, fn: string)
    requires i <= |fns|
    ensures InvokerMap(s, c, fns, i).Get(fn) == if fn in fns[..i] then Some(InvokeChannel(s, c, fn)) else None
    decreases i
  {
    if i > 0 {
      InvokerMapAt(s, c, fns, i - 1, fn);
      assert fns[..i] == fns[..i - 1] + [fns[i - 1]];
    }
  }

  lemma InvokerMapAll(s: string, c: string, fns: seq<string>)
    ensures InvokerMap(s, c, fns, |fns|).Valid()
    ensures forall fn :: fn in InvokerMap(s, c, fns, |fns|).vals <==> fn in fns
    ensures forall fn :: fn in InvokerMap(s, c, fns, |fns|).vals ==> InvokerMap(s, c, fns, |fns|).vals[fn] == InvokeChannel(s, c, fn)
  {
    InvokerMapValid(s, c, fns, |fns|);
    assert fns[..|fns|] == fns;
    forall fn ensures InvokerMap(s, c, fns, |fns|).Get(fn) == if fn in fns then Some(InvokeChannel(s, c, fn)) else None {
      InvokerMapAt(s, c, fns, |fns|, fn);
    }
  }

  /** Distinct method names keep their order as the API's keys. */
  lemma {:induction false} InvokerMapKeys(s: string, c: string, fns: seq<string>, i: nat)
    requires i <= |fns| && Distinct(fns)
    ensures InvokerMap(s, c, fns, i).keys == fns[..i]
    decreases i
  {
    if i > 0 {
      InvokerMapKeys(s, c, fns, i - 1);
      InvokerMapAt(s, c, fns, i - 1, fns[i - 1]);
      assert fns[i - 1] !in fns[..i - 1];
      assert fns[..i] == fns[..i - 1] + [fns[i - 1]];
    }
  }

  /** The API record registerController builds for a prototype. */
  function ApiOf(s: string, c: string, p: Proto): ClassApi {
    var fns := MethodNames(p.names);
    ClassApi(InvokerMap(s, c, fns, |fns|), p.isEmitter)
  }

  /** The three methods Object.assign puts on an EventEmitter's API, over any invoker of the same name. */
  const ListenerMethods: set<string> := {"addListener", "removeListener", "removeAllListeners"}

  /** The invoke channel behind `api[name]`, if that member is an invoker. */
  function InvokerOf(a: ClassApi, name: string): (r: Option<string>)
    ensures a.emitter && name in ListenerMethods ==> r.None?
    ensures !(a.emitter && name in ListenerMethods) ==> r == a.invokers.Get(name)
  {
    if a.emitter && name in ListenerMethods then None else a.invokers.Get(name)
  }

  /**
   * A registered API invokes, for each own method of the prototype other than the constructor,
   * the channel "subsystem.class.method" (unless a listener method shadows it), and nothing else.
   */
  lemma ApiInvokers(s: string, c: string, p: Proto, name: string)
    ensures InvokerOf(ApiOf(s, c, p), name).Some? <==>
              name in p.names && name != "constructor" && !(p.isEmitter && name in ListenerMethods)
    ensures InvokerOf(ApiOf(s, c, p), name).Some? ==> InvokerOf(ApiOf(s, c, p), name).value == InvokeChannel(s, c, name)
  {
    var fns := MethodNames(p.names);
    InvokerMapAll(s, c, fns);
  }

  /**
   * `getMethods(subsysKey, classKey)`: [] for an unknown subsystem or class; a TypeError when
   * the export has no prototype; otherwise the own method names other than the constructor.
   */
  function GetMethods(cat: Catalogue, s: string, c: string): (r: Result<seq<string>>)
    ensures (s !in cat.vals || c !in cat.vals[s].vals) ==> r == Ok([])
    ensures s in cat.vals && c in cat.vals[s].vals && cat.vals[s].vals[c].None? ==> r == Err(TypeError)
    ensures s in cat.vals && c in cat.vals[s].vals && cat.vals[s].vals[c].Some? ==>
              r.Ok? && forall m :: m in r.value <==> m in cat.vals[s].vals[c].value.names && m != "constructor"
  {
    if s !in cat.vals || c !in cat.vals[s].vals then Ok([])
    else match cat.vals[s].vals[c]
      case None => Err(TypeError)
      case Some(p) => Ok(MethodNames(p.names))
  }

  /** getMethods lists exactly the methods the registered API invokes, in the same order, for distinct names. */
  lemma GetMethodsMatchesApi(cat: Catalogue, s: string, c: string, p: Proto)
    requires s in cat.vals && c in cat.vals[s].vals && cat.vals[s].vals[c] == Some(p)
    requires Distinct(p.names)
    ensures GetMethods(cat, s, c) == Ok(ApiOf(s, c, p).invokers.keys)
  {
    var fns := MethodNames(p.names);
    InvokerMapKeys(s, c, fns, |fns|);
    assert fns[..|fns|] == fns;
  }

  /** Subsystem and class keys are plain, and every subsystem's record is a valid map. */
  ghost predicate CatalogueValid(cat: Catalogue) {
    cat.Valid() &&
    forall s :: s in cat.vals ==> Plain(s) && cat.vals[s].Valid() && forall c :: c in cat.vals[s].vals ==> Plain(c)
  }

  // ---------------------------------------------------------------------------
  // Listener bookkeeping of one controller API, on values.
  // ---------------------------------------------------------------------------

  /** `hasListenerOfType(type)`. */
  predicate HasType(ls: OMap<string, Listener>, t: string) {
    exists id :: id in ls.vals && ls.vals[id].ltype == t
  }

  /** Whether the last subscribe or unsubscribe message for type `t` of controller (s, c) was a subscribe. */
  function Subscribed(msgs: seq<RendererMsg>, s: string, c: string, t: string): bool
    decreases |msgs|
  {
    if msgs == [] then false
    else
      var m := msgs[|msgs| - 1];
      if m == SendMsg(AddChannel(s, c), t) then true
      else if m == SendMsg(RemoveChannel(s, c), t) then false
      else Subscribed(msgs[..|msgs| - 1], s, c, t)
  }

  lemma SubscribedSnoc(msgs: seq<RendererMsg>, m: RendererMsg, s: string, c: string, t: string)
    ensures Subscribed(msgs + [m], s, c, t) ==
              if m == SendMsg(AddChannel(s, c), t) then true
              else if m == SendMsg(RemoveChannel(s, c), t) then false
              else Subscribed(msgs, s, c, t)
  {
    assert (msgs + [m])[..|msgs|] == msgs;
  }

  /**
   * The main process is subscribed to a type of controller (s, c) exactly when the renderer
   * holds a listener of that type for it.
   */
  ghost predicate Sync(msgs: seq<RendererMsg>, s: string, c: string, ls: OMap<string, Listener>) {
    forall t :: Subscribed(msgs, s, c, t) <==> HasType(ls, t)
  }

  /**
   * Messages of one controller never disturb another's subscriptions: a subscribe or
   * unsubscribe message on the channel of (s, c) leaves every subscription of a different
   * controller (s', c') as it was, when all four keys are plain.
   */
  lemma SubscribedOther(msgs: seq<RendererMsg>, s: string, c: string, t: string, s': string, c': string, t': string,
                        ch: string)
    requires Plain(s) && Plain(c) && Plain(s') && Plain(c')
    requires ch == AddChannel(s, c) || ch == RemoveChannel(s, c)
    requires (s', c') != (s, c)
    ensures Subscribed(msgs + [SendMsg(ch, t)], s', c', t') == Subscribed(msgs, s', c', t')
  {
    SubscribedSnoc(msgs, SendMsg(ch, t), s', c', t');
    if t' == t {
      if ch == AddChannel(s, c) {
        AddIsNotRemove(s, c, s', c');
        if ch == AddChannel(s', c') { AddChannelInjective(s, c, s', c'); }
      } else {
        AddIsNotRemove(s', c', s, c);
        if ch == RemoveChannel(s', c') { RemoveChannelInjective(s, c, s', c'); }
      }
    }
  }

  /** So another controller's subscribe and unsubscribe messages keep a controller in step. */
  lemma SyncOther(msgs: seq<RendererMsg>, s: string, c: string, t: string, ch: string,
                  s': string, c': string, ls': OMap<string, Listener>)
    requires Plain(s) && Plain(c) && Plain(s') && Plain(c') && (s', c') != (s, c)
    requires ch == AddChannel(s, c) || ch == RemoveChannel(s, c)
    requires Sync(msgs, s', c', ls')
    ensures Sync(msgs + [SendMsg(ch, t)], s', c', ls')
  {
    forall t' ensures Subscribed(msgs + [SendMsg(ch, t)], s', c', t') == Subscribed(msgs, s', c', t') {
      SubscribedOther(msgs, s, c, t, s', c', t', ch);
    }
  }

  /** An invoke message is about no subscription. */
  lemma SyncInvoke(msgs: seq<RendererMsg>, ch: string, args: seq<Value>, s: string, c: string, ls: OMap<string, Listener>)
    requires Sync(msgs, s, c, ls)
    ensures Sync(msgs + [InvokeMsg(ch, args)], s, c, ls)
  {
    forall t ensures Subscribed(msgs + [InvokeMsg(ch, args)], s, c, t) == Subscribed(msgs, s, c, t) {
      SubscribedSnoc(msgs, InvokeMsg(ch, args), s, c, t);
    }
  }

  /** What addListener sends: a subscribe message only for the first listener of its type. */
  function AddMsgs(ls: OMap<string, Listener>, s: string, c: string, t: string): seq<RendererMsg> {
    if HasType(ls, t) then [] else [SendMsg(AddChannel(s, c), t)]
  }

  /** What removeListener sends once the entry is gone: an unsubscribe message only when no listener of its type is left. */
  function RemoveMsgs(rest: OMap<string, Listener>, s: string, c: string, t: string): seq<RendererMsg> {
    if HasType(rest, t) then [] else [SendMsg(RemoveChannel(s, c), t)]
  }

  /** addListener with a fresh id keeps the main process in step with the listeners held. */
  lemma SyncAdd(msgs: seq<RendererMsg>, s: string, c: string, ls: OMap<string, Listener>, t: string, id: string, h: nat)
    requires Sync(msgs, s, c, ls) && ls.Valid() && id !in ls.vals
    ensures Sync(msgs + AddMsgs(ls, s, c, t), s, c, ls.Set(id, Listener(t, h)))
  {
    var ls' := ls.Set(id, Listener(t, h));
    var msgs' := msgs + AddMsgs(ls, s, c, t);
    forall t' ensures Subscribed(msgs', s, c, t') <==> HasType(ls', t') {
      assert HasType(ls', t') <==> HasType(ls, t') || t' == t by {
        if HasType(ls', t') {
          var x :| x in ls'.vals && ls'.vals[x].ltype == t';
          if x != id { assert ls'.Get(x) == ls.Get(x); }
        }
        if HasType(ls, t') {
          var x :| x in ls.vals && ls.vals[x].ltype == t';
          assert x != id && ls'.Get(x) == ls.Get(x);
        }
        assert ls'.vals[id].ltype == t;
      }
      if !HasType(ls, t) {
        SubscribedSnoc(msgs, SendMsg(AddChannel(s, c), t), s, c, t');
      } else {
        assert msgs' == msgs;
      }
    }
  }

  /** removeListener of a held id keeps the main process in step with the listeners held. */
  lemma SyncRemove(msgs: seq<RendererMsg>, s: string, c: string, ls: OMap<string, Listener>, id: string)
    requires Sync(msgs, s, c, ls) && ls.Valid() && id in ls.vals
    ensures Sync(msgs + RemoveMsgs(ls.Delete(id), s, c, ls.vals[id].ltype), s, c, ls.Delete(id))
  {
    var t := ls.vals[id].ltype;
    var rest := ls.Delete(id);
    var msgs' := msgs + RemoveMsgs(rest, s, c, t);
    forall t' ensures Subscribed(msgs', s, c, t') <==> HasType(rest, t') {
      if t' != t {
        assert HasType(rest, t') <==> HasType(ls, t') by {
          if HasType(rest, t') {
            var x :| x in rest.vals && rest.vals[x].ltype == t';
            assert rest.Get(x) == ls.Get(x);
          }
          if HasType(ls, t') {
            var x :| x in ls.vals && ls.vals[x].ltype == t';
            assert x != id && rest.Get(x) == ls.Get(x);
          }
        }
      }
      if !HasType(rest, t) {
        SubscribedSnoc(msgs, SendMsg(RemoveChannel(s, c), t), s, c, t');
      } else {
        assert msgs' == msgs;
        if t' == t {
          var x :| x in rest.vals && rest.vals[x].ltype == t;
          assert rest.Get(x) == ls.Get(x);
        }
      }
    }
  }

  /**
   * Adding a listener with a fresh id and then removing it restores the listener record exactly,
   * and the messages sent on the way subscribe and unsubscribe the type, or neither.
   */
  lemma AddThenRemoveRestores(ls: OMap<string, Listener>, s: string, c: string, id: string, e: Listener)
    requires ls.Valid() && id !in ls.vals
    ensures ls.Set(id, e).Delete(id) == ls
    ensures AddMsgs(ls, s, c, e.ltype) + RemoveMsgs(ls, s, c, e.ltype) ==
              if HasType(ls, e.ltype) then []
              else [SendMsg(AddChannel(s, c), e.ltype), SendMsg(RemoveChannel(s, c), e.ltype)]
  {
    var r := ls.Set(id, e).Delete(id);
    assert r.vals == ls.vals;
    WithoutAppended(ls.keys, id);
  }

  /** `!type || entry.type === type`: an absent or empty type matches every entry. */
  predicate Matches(t: Option<string>, e: Listener) {
    !Truthy(t) || e.ltype == t.value
  }

  /** removeAllListeners over the first `i` entries of `ls`: the listeners left. */
  function KeptUpTo(ls: OMap<string, Listener>, t: Option<string>, i: nat): (r: OMap<string, Listener>)
    requires i <= |ls.keys|
    decreases i
  {
    if i == 0 then ls
    else
      var prev := KeptUpTo(ls, t, i - 1);
      var k := ls.keys[i - 1];
      if k in ls.vals && Matches(t, ls.vals[k]) then prev.Delete(k) else prev
  }

  /** removeAllListeners over the first `i` entries: one unsubscribe message per matching entry, in order. */
  function RemoveAllMsgs(ls: OMap<string, Listener>, s: string, c: string, t: Option<string>, i: nat): (r: seq<RendererMsg>)
    requires i <= |ls.keys|
    ensures |r| <= i
    decreases i
  {
    if i == 0 then []
    else
      var prev := RemoveAllMsgs(ls, s, c, t, i - 1);
      var k := ls.keys[i - 1];
      if k in ls.vals && Matches(t, ls.vals[k]) then prev + [SendMsg(RemoveChannel(s, c), ls.vals[k].ltype)] else prev
  }

  /** removeAllListeners over the first `i` entries: the registrations detached. */
  function DetachedUpTo(ls: OMap<string, Listener>, s: string, c: string, t: Option<string>, i: nat): set<(string, nat)>
    requires i <= |ls.keys|
    decreases i
  {
    if i == 0 then {}
    else
      var prev := DetachedUpTo(ls, s, c, t, i - 1);
      var k := ls.keys[i - 1];
      if k in ls.vals && Matches(t, ls.vals[k]) then prev + {(EventChannel(s, c, ls.vals[k].ltype), ls.vals[k].handler)}
      else prev
  }

  lemma {:induction false} KeptUpToValid(ls: OMap<string, Listener>, t: Option<string>, i: nat)
    requires ls.Valid() && i <= |ls.keys|
    ensures KeptUpTo(ls, t, i).Valid()
    decreases i
  {
    if i > 0 {
      KeptUpToValid(ls, t, i - 1);
    }
  }

  /** After the first `i` entries, an entry among them is gone exactly when it matches; the others are untouched. */
  lemma {:induction false} KeptUpToAt(ls: OMap<string, Listener>, t: Option<string>, i: nat, id: string)
    requires ls.Valid() && i <= |ls.keys|
    ensures KeptUpTo(ls, t, i).Get(id) ==
              if id in ls.keys[..i] && Matches(t, ls.vals[id]) then None else ls.Get(id)
    decreases i
  {
    if i > 0 {
      KeptUpToAt(ls, t, i - 1, id);
      assert ls.keys[..i] == ls.keys[..i - 1] + [ls.keys[i - 1]];
    }
  }

  /** Each entry is kept, unchanged, exactly when it does not match. */
  lemma KeptEntry(ls: OMap<string, Listener>, t: Option<string>, id: string)
    requires ls.Valid()
    ensures KeptUpTo(ls, t, |ls.keys|).Get(id) == if id in ls.vals && Matches(t, ls.vals[id]) then None else ls.Get(id)
  {
    KeptUpToAt(ls, t, |ls.keys|, id);
    assert ls.keys[..|ls.keys|] == ls.keys;
  }

  /**
   * removeAllListeners(type) keeps exactly the entries of other types (none when the type is
   * absent or empty), each as it was.
   */
  lemma RemoveAllKeepsOthers(ls: OMap<string, Listener>, t: Option<string>)
    requires ls.Valid()
    ensures KeptUpTo(ls, t, |ls.keys|).Valid()
    ensures forall id :: KeptUpTo(ls, t, |ls.keys|).Get(id) == if id in ls.vals && Matches(t, ls.vals[id]) then None else ls.Get(id)
    ensures !Truthy(t) ==> KeptUpTo(ls, t, |ls.keys|).keys == []
  {
    KeptUpToValid(ls, t, |ls.keys|);
    forall id ensures KeptUpTo(ls, t, |ls.keys|).Get(id) == if id in ls.vals && Matches(t, ls.vals[id]) then None else ls.Get(id) {
      KeptEntry(ls, t, id);
    }
    var kept := KeptUpTo(ls, t, |ls.keys|);
    if !Truthy(t) && kept.keys != [] {
      KeptEntry(ls, t, kept.keys[0]);
      assert false;
    }
  }

  /** Some entry among the first `i` matched and had type `ty`. */
  ghost predicate RemovedOfType(ls: OMap<string, Listener>, t: Option<string>, i: nat, ty: string)
    requires ls.Valid() && i <= |ls.keys|
  {
    exists j :: 0 <= j < i && Matches(t, ls.vals[ls.keys[j]]) && ls.vals[ls.keys[j]].ltype == ty
  }

  lemma RemovedOfTypeStep(ls: OMap<string, Listener>, t: Option<string>, i: nat, ty: string)
    requires ls.Valid() && 0 < i <= |ls.keys|
    ensures var e := ls.vals[ls.keys[i - 1]];
            RemovedOfType(ls, t, i, ty) <==> RemovedOfType(ls, t, i - 1, ty) || (Matches(t, e) && e.ltype == ty)
  {
    if RemovedOfType(ls, t, i, ty) {
      var j :| 0 <= j < i && Matches(t, ls.vals[ls.keys[j]]) && ls.vals[ls.keys[j]].ltype == ty;
      if j < i - 1 {
        assert RemovedOfType(ls, t, i - 1, ty);
      }
    }
    if RemovedOfType(ls, t, i - 1, ty) {
      var j :| 0 <= j < i - 1 && Matches(t, ls.vals[ls.keys[j]]) && ls.vals[ls.keys[j]].ltype == ty;
      assert 0 <= j < i;
    }
  }

  /** Before entry `i`, a type is still subscribed exactly when it was and no matching entry of it has been removed. */
  lemma {:induction false} RemoveAllSubscribed(msgs: seq<RendererMsg>, ls: OMap<string, Listener>, s: string, c: string,
                                               t: Option<string>, i: nat, ty: string)
    requires ls.Valid() && i <= |ls.keys|
    ensures Subscribed(msgs + RemoveAllMsgs(ls, s, c, t, i), s, c, ty) ==
              if RemovedOfType(ls, t, i, ty) then false else Subscribed(msgs, s, c, ty)
    decreases i
  {
    if i == 0 {
      assert msgs + RemoveAllMsgs(ls, s, c, t, i) == msgs;
    } else {
      RemoveAllSubscribed(msgs, ls, s, c, t, i - 1, ty);
      RemovedOfTypeStep(ls, t, i, ty);
      var prev := msgs + RemoveAllMsgs(ls, s, c, t, i - 1);
      var e := ls.vals[ls.keys[i - 1]];
      if Matches(t, e) {
        assert msgs + RemoveAllMsgs(ls, s, c, t, i) == prev + [SendMsg(RemoveChannel(s, c), e.ltype)];
        SubscribedSnoc(prev, SendMsg(RemoveChannel(s, c), e.ltype), s, c, ty);
      }
    }
  }

  /** removeAllListeners keeps the main process in step with the listeners held. */
  lemma SyncRemoveAll(msgs: seq<RendererMsg>, s: string, c: string, ls: OMap<string, Listener>, t: Option<string>)
    requires Sync(msgs, s, c, ls) && ls.Valid()
    ensures Sync(msgs + RemoveAllMsgs(ls, s, c, t, |ls.keys|), s, c, KeptUpTo(ls, t, |ls.keys|))
  {
    var n := |ls.keys|;
    var kept := KeptUpTo(ls, t, n);
    var msgs' := msgs + RemoveAllMsgs(ls, s, c, t, n);
    forall ty ensures Subscribed(msgs', s, c, ty) <==> HasType(kept, ty) {
      RemoveAllSubscribed(msgs, ls, s, c, t, n, ty);
      var removedOne := RemovedOfType(ls, t, n, ty);
      if HasType(kept, ty) {
        var x :| x in kept.vals && kept.vals[x].ltype == ty;
        KeptEntry(ls, t, x);
        assert !Matches(t, ls.vals[x]);
        assert HasType(ls, ty);
        assert !removedOne;
      } else if HasType(ls, ty) {
        var x :| x in ls.vals && ls.vals[x].ltype == ty;
        KeptEntry(ls, t, x);
        assert x in ls.keys;
        var j :| 0 <= j < n && ls.keys[j] == x;
        assert RemovedOfType(ls, t, n, ty);
      }
    }
  }

  /**
   * removeAllListeners sends one unsubscribe message per entry removed, not one per type: two
   * listeners of the same type give two messages.
   */
  lemma RemoveAllSendsPerEntry(s: string, c: string, t: string, h1: nat, h2: nat)
    ensures var ls := OMap(["a", "b"], map["a" := Listener(t, h1), "b" := Listener(t, h2)]);
            ls.Valid() &&
            RemoveAllMsgs(ls, s, c, None, 2) == [SendMsg(RemoveChannel(s, c), t), SendMsg(RemoveChannel(s, c), t)]
  {
    var ls := OMap(["a", "b"], map["a" := Listener(t, h1), "b" := Listener(t, h2)]);
    assert ls.keys[0] == "a" && ls.keys[1] == "b";
  }

  /** The loop of registerController that sets one invoker per method name, in order. */
  method BuildInvokers(s: string, c: string, fns: seq<string>) returns (r: OMap<string, string>)
    ensures r == InvokerMap(s, c, fns, |fns|)
    ensures r.Valid()
    ensures forall fn :: fn in r.vals <==> fn in fns
    ensures forall fn :: fn in r.vals ==> r.vals[fn] == InvokeChannel(s, c, fn)
  {
    r := Empty();
    var i := 0;
    while i < |fns|
      invariant 0 <= i <= |fns|
      invariant r == InvokerMap(s, c, fns, i)
    {
      r := r.Set(fns[i], InvokeChannel(s, c, fns[i]));
      i := i + 1;
    }
    InvokerMapAll(s, c, fns);
  }

  /** The loop of removeAllListeners over a snapshot of the entries of `ls`. */
  method DropMatching(ls: OMap<string, Listener>, s: string, c: string, t: Option<string>,
                      sent0: seq<RendererMsg>, attached0: set<(string, nat)>)
    returns (cur: OMap<string, Listener>, sent: seq<RendererMsg>, attached: set<(string, nat)>)
    ensures cur == KeptUpTo(ls, t, |ls.keys|)
    ensures sent == sent0 + RemoveAllMsgs(ls, s, c, t, |ls.keys|)
    ensures attached == attached0 - DetachedUpTo(ls, s, c, t, |ls.keys|)
  {
    cur, sent, attached := ls, sent0, attached0;
    var i := 0;
    while i < |ls.keys|
      invariant 0 <= i <= |ls.keys|
      invariant cur == KeptUpTo(ls, t, i)
      invariant sent == sent0 + RemoveAllMsgs(ls, s, c, t, i)
      invariant attached == attached0 - DetachedUpTo(ls, s, c, t, i)
    {
      var id := ls.keys[i];
      if id in ls.vals {
        var e := ls.vals[id];
        if !Truthy(t) || e.ltype == t.value {
          attached := attached - {(EventChannel(s, c, e.ltype), e.handler)};
          sent := sent + [SendMsg(RemoveChannel(s, c), e.ltype)];
          cur := cur.Delete(id);
        }
      }
      i := i + 1;
    }
  }

  /** An API object stored under (s, c) was built for (s, c) over the given ipcRenderer. */
  ghost predicate Registered(s: string, c: string, a: ControllerApi, r: Renderer) {
    a.subsys == s && a.cls == c && a.renderer == r && Plain(s) && Plain(c)
  }

  /** OSsysAPI is a valid nested map whose every object was built for its own keys. */
  ghost predicate RegistryValid(api: OMap<string, OMap<string, ControllerApi>>, r: Renderer) {
    api.Valid() &&
    (forall s :: s in api.vals ==> api.vals[s].Valid()) &&
    (forall s, c :: s in api.vals && c in api.vals[s].vals ==> Registered(s, c, api.vals[s].vals[c], r))
  }

  lemma StoreKeepsValid(api: OMap<string, OMap<string, ControllerApi>>, s: string, c: string, a: ControllerApi, r: Renderer)
    requires RegistryValid(api, r) && Registered(s, c, a, r)
    ensures RegistryValid(api.Set(s, (if s in api.vals then api.vals[s] else Empty()).Set(c, a)), r)
  {
    var sub := if s in api.vals then api.vals[s] else Empty();
    var sub' := sub.Set(c, a);
    var api' := api.Set(s, sub');
    forall s' | s' in api'.vals
      ensures api'.vals[s'].Valid()
    {
      if s' != s { assert api'.Get(s') == api.Get(s'); }
    }
    forall s', c' | s' in api'.vals && c' in api'.vals[s'].vals
      ensures Registered(s', c', api'.vals[s'].vals[c'], r)
    {
      if s' != s {
        assert api'.Get(s') == api.Get(s');
      } else if c' != c {
        assert sub'.Get(c') == sub.Get(c');
      }
    }
  }

  // ---------------------------------------------------------------------------
  // The objects: ipcRenderer, one API object per controller, and the OSsysAPI registry.
  // ---------------------------------------------------------------------------

  /** ipcRenderer, as far as the bridge uses it. */
  class Renderer {
    /** Every message sent or invoked, oldest first. */
    var sent: seq<RendererMsg>
    /** The (channel, handler) registrations attached. */
    var attached: set<(string, nat)>
    /** Tells apart the handler closures addListener creates. */
    var nextHandler: nat

    constructor ()
      ensures sent == [] && attached == {} && nextHandler == 0
    {
      sent := [];
      attached := {};
      nextHandler := 0;
    }
  }

  /** The API object registerController builds for one controller class, with its `listeners` record. */
  class ControllerApi {
    const subsys: string
    const cls: string
    const members: ClassApi
    const renderer: Renderer
    var listeners: OMap<string, Listener>

    ghost predicate Valid()
      reads this
    {
      listeners.Valid()
    }

    /** The main process is subscribed to exactly the event types this API holds listeners for. */
    ghost predicate InSync()
      reads this, renderer
    {
      Sync(renderer.sent, subsys, cls, listeners)
    }

    constructor (s: string, c: string, m: ClassApi, r: Renderer)
      ensures Valid() && subsys == s && cls == c && members == m && renderer == r && listeners == Empty()
    {
      subsys := s;
      cls := c;
      members := m;
      renderer := r;
      listeners := Empty();
    }

    /**
     * Calling `api[name](...args)` for a name other than the three listener methods of an emitter
     * API (those are AddListener, RemoveListener and RemoveAllListeners): an invoker sends the
     * arguments on its channel; a name with no member throws.
     */
    method Invoke(name: string, args: seq<Value>) returns (r: Result<()>)
      requires !(members.emitter && name in ListenerMethods)
      modifies renderer`sent
      ensures old(InSync()) ==> InSync()
      ensures InvokerOf(members, name).None? ==> r == Err(TypeError) && renderer.sent == old(renderer.sent)
      ensures InvokerOf(members, name).Some? ==>
                r == Ok(()) && renderer.sent == old(renderer.sent) + [InvokeMsg(InvokerOf(members, name).value, args)]
    {
      var ch := InvokerOf(members, name);
      if ch.None? {
        return Err(TypeError);
      }
      if InSync() {
        SyncInvoke(renderer.sent, ch.value, args, subsys, cls, listeners);
      }
      renderer.sent := renderer.sent + [InvokeMsg(ch.value, args)];
      r := Ok(());
    }

    /** `hasListenerOfType(type)`: some entry has that type. */
    function HasListenerOfType(t: string): (b: bool)
      requires Valid()
      reads this
      ensures b <==> HasType(listeners, t)
    {
      exists k :: k in listeners.keys && listeners.vals[k].ltype == t
    }

    /**
     * `addListener(type, callback)`: subscribes the type with the main process unless a listener
     * of that type is already held, attaches a new handler to the type's event channel, records
     * it under `id` and returns `id`. An API that is not an EventEmitter has no such method.
     */
    method AddListener(t: string, id: string) returns (r: Result<string>)
      requires Valid()
      modifies this, renderer
      ensures Valid()
      ensures !members.emitter ==>
                r == Err(TypeError) && listeners == old(listeners) && unchanged(renderer)
      ensures members.emitter ==>
                r == Ok(id) &&
                renderer.sent == old(renderer.sent) + AddMsgs(old(listeners), subsys, cls, t) &&
                renderer.attached == old(renderer.attached) + {(EventChannel(subsys, cls, t), old(renderer.nextHandler))} &&
                renderer.nextHandler == old(renderer.nextHandler) + 1 &&
                listeners == old(listeners).Set(id, Listener(t, old(renderer.nextHandler)))
      ensures old(InSync()) && id !in old(listeners.vals) ==> InSync()
    {
      if !members.emitter {
        return Err(TypeError);
      }
      if InSync() && id !in listeners.vals {
        SyncAdd(renderer.sent, subsys, cls, listeners, t, id, renderer.nextHandler);
      }
      if !HasListenerOfType(t) {
        renderer.sent := renderer.sent + [SendMsg(AddChannel(subsys, cls), t)];
      }
      var h := renderer.nextHandler;
      renderer.nextHandler := h + 1;
      renderer.attached := renderer.attached + {(EventChannel(subsys, cls, t), h)};
      listeners := listeners.Set(id, Listener(t, h));
      r := Ok(id);
    }

    /**
     * `removeListener(id)`: an unknown id changes nothing; otherwise the handler is detached, the
     * entry deleted, and the type unsubscribed when no listener of it is left.
     */
    method RemoveListener(id: string) returns (r: Result<()>)
      requires Valid()
      modifies this, renderer`sent, renderer`attached
      ensures Valid() && old(InSync()) ==> InSync()
      ensures !members.emitter ==> r == Err(TypeError) && listeners == old(listeners) && unchanged(renderer)
      ensures members.emitter && id !in old(listeners.vals) ==>
                r == Ok(()) && listeners == old(listeners) && unchanged(renderer)
      ensures members.emitter && id in old(listeners.vals) ==>
                var e := old(listeners.vals[id]);
                r == Ok(()) &&
                renderer.attached == old(renderer.attached) - {(EventChannel(subsys, cls, e.ltype), e.handler)} &&
                listeners == old(listeners).Delete(id) &&
                renderer.sent == old(renderer.sent) + RemoveMsgs(listeners, subsys, cls, e.ltype)
    {
      if !members.emitter {
        return Err(TypeError);
      }
      if id !in listeners.vals {
        return Ok(());
      }
      var e := listeners.vals[id];
      if InSync() {
        SyncRemove(renderer.sent, subsys, cls, listeners, id);
      }
      renderer.attached := renderer.attached - {(EventChannel(subsys, cls, e.ltype), e.handler)};
      listeners := listeners.Delete(id);
      if !HasListenerOfType(e.ltype) {
        renderer.sent := renderer.sent + [SendMsg(RemoveChannel(subsys, cls), e.ltype)];
      }
      r := Ok(());
    }

    /**
     * `removeAllListeners(type?)`: every entry of that type (every entry when the type is absent
     * or empty) is detached and deleted, with one unsubscribe message per entry removed.
     */
    method RemoveAllListeners(t: Option<string>) returns (r: Result<()>)
      requires Valid()
      modifies this, renderer`sent, renderer`attached
      ensures Valid() && old(InSync()) ==> InSync()
      ensures !members.emitter ==> r == Err(TypeError) && listeners == old(listeners) && unchanged(renderer)
      ensures members.emitter ==>
                var ls := old(listeners);
                r == Ok(()) &&
                listeners == KeptUpTo(ls, t, |ls.keys|) &&
                renderer.sent == old(renderer.sent) + RemoveAllMsgs(ls, subsys, cls, t, |ls.keys|) &&
                renderer.attached == old(renderer.attached) - DetachedUpTo(ls, subsys, cls, t, |ls.keys|)
    {
      if !members.emitter {
        return Err(TypeError);
      }
      var ls := listeners;
      if InSync() {
        SyncRemoveAll(renderer.sent, subsys, cls, ls, t);
      }
      KeptUpToValid(ls, t, |ls.keys|);
      var cur, sent, attached := DropMatching(ls, subsys, cls, t, renderer.sent, renderer.attached);
      listeners := cur;
      renderer.sent := sent;
      renderer.attached := attached;
      r := Ok(());
    }
  }

  /** The renderer-side module: the loaded catalogue, ipcRenderer and OSsysAPI. */
  class Bridge {
    /** What `loadControllers()` returns, loaded once. */
    const catalogue: Catalogue
    const renderer: Renderer
    /** OSsysAPI: subsystem -> class key -> API object. */
    var api: OMap<string, OMap<string, ControllerApi>>

    ghost predicate Valid()
      reads this
    {
      CatalogueValid(catalogue) && RegistryValid(api, renderer)
    }

    predicate Cached(s: string, c: string)
      reads this
    {
      s in api.vals && c in api.vals[s].vals
    }

    constructor (cat: Catalogue)
      requires CatalogueValid(cat)
      ensures Valid() && catalogue == cat && api == Empty()
      ensures fresh(renderer) && renderer.sent == [] && renderer.attached == {} && renderer.nextHandler == 0
    {
      catalogue := cat;
      renderer := new Renderer();
      api := Empty();
    }

    /**
     * `registerController(s, c)`: an unknown subsystem or class throws; an export without a
     * prototype registers nothing; otherwise a new API object for the prototype is stored.
     */
    method RegisterController(s: string, c: string) returns (r: Result<()>)
      requires Valid() && !Cached(s, c)
      modifies this`api
      ensures Valid()
      ensures s !in catalogue.vals ==> r == Err(Thrown("Subsystem not found: " + s)) && api == old(api)
      ensures s in catalogue.vals && c !in catalogue.vals[s].vals ==>
                r == Err(Thrown("Controller not found: " + c)) && api == old(api)
      ensures s in catalogue.vals && c in catalogue.vals[s].vals && catalogue.vals[s].vals[c].None? ==>
                r == Ok(()) && api == old(api)
      ensures s in catalogue.vals && c in catalogue.vals[s].vals && catalogue.vals[s].vals[c].Some? ==>
                Cached(s, c) &&
                var a := api.vals[s].vals[c];
                r == Ok(()) && fresh(a) &&
                a.members == ApiOf(s, c, catalogue.vals[s].vals[c].value) && a.listeners == Empty() &&
                api == old(api).Set(s, (if s in old(api.vals) then old(api.vals[s]) else Empty()).Set(c, a))
    {
      if s !in catalogue.vals {
        return Err(Thrown("Subsystem not found: " + s));
      }
      var subsys := catalogue.vals[s];
      if c !in subsys.vals {
        return Err(Thrown("Controller not found: " + c));
      }
      var proto := subsys.vals[c];
      if proto.None? {
        return Ok(());
      }
      var fnList := MethodNames(proto.value.names);
      var invokers := BuildInvokers(s, c, fnList);
      var classApi := new ControllerApi(s, c, ClassApi(invokers, proto.value.isEmitter), renderer);
      Store(s, c, classApi);
      r := Ok(());
    }

    /** `OSsysAPI[s] ||= {}; OSsysAPI[s][c] = classAPI`. */
    method Store(s: string, c: string, a: ControllerApi)
      requires Valid() && Registered(s, c, a, renderer)
      modifies this`api
      ensures Valid()
      ensures api == old(api).Set(s, (if s in old(api.vals) then old(api.vals[s]) else Empty()).Set(c, a))
    {
      StoreKeepsValid(api, s, c, a, renderer);
      var sub := if s in api.vals then api.vals[s] else Empty();
      api := api.Set(s, sub.Set(c, a));
    }

    /**
     * `getController(s, c)`: a cached API object is returned and nothing changes; otherwise the
     * controller is registered first (its error propagates). An export without a prototype
     * leaves nothing to return: undefined, or a TypeError when its subsystem has no API yet.
     */
    method GetController(s: string, c: string) returns (r: Result<Option<ControllerApi>>)
      requires Valid()
      modifies this`api
      ensures Valid()
      ensures old(Cached(s, c)) ==> r == Ok(Some(old(api.vals[s].vals[c]))) && api == old(api)
      ensures !old(Cached(s, c)) && s !in catalogue.vals ==> r == Err(Thrown("Subsystem not found: " + s))
      ensures !old(Cached(s, c)) && s in catalogue.vals && c !in catalogue.vals[s].vals ==>
                r == Err(Thrown("Controller not found: " + c))
      ensures !old(Cached(s, c)) && s in catalogue.vals && c in catalogue.vals[s].vals && catalogue.vals[s].vals[c].None? ==>
                r == (if s in old(api.vals) then Ok(None) else Err(TypeError)) && api == old(api)
      ensures !old(Cached(s, c)) && s in catalogue.vals && c in catalogue.vals[s].vals && catalogue.vals[s].vals[c].Some? ==>
                Cached(s, c) && r == Ok(Some(api.vals[s].vals[c])) && fresh(api.vals[s].vals[c]) &&
                api.vals[s].vals[c].members == ApiOf(s, c, catalogue.vals[s].vals[c].value)
      ensures r.Ok? && r.value.Some? ==> r.value.value.subsys == s && r.value.value.cls == c
    {
      if !(s in api.vals && c in api.vals[s].vals) {
        var reg := RegisterController(s, c);
        if reg.Err? {
          return Err(reg.error);
        }
      }
      if s !in api.vals {
        return Err(TypeError);
      }
      r := Ok(api.vals[s].Get(c));
    }

    /** `listAvailable()`: each subsystem, in order, with its class keys, in order. */
    method ListAvailable() returns (r: OMap<string, seq<string>>)
      requires Valid()
      ensures r.Valid() && r.keys == catalogue.keys
      ensures forall s :: s in catalogue.vals ==> s in r.vals && r.vals[s] == catalogue.vals[s].keys
    {
      r := Empty();
      var i := 0;
      while i < |catalogue.keys|
        invariant 0 <= i <= |catalogue.keys|
        invariant r.Valid() && r.keys == catalogue.keys[..i]
        invariant forall s :: s in r.vals ==> s in catalogue.vals && r.vals[s] == catalogue.vals[s].keys
      {
        var s := catalogue.keys[i];
        assert s !in catalogue.keys[..i];
        r := r.Set(s, catalogue.vals[s].keys);
        assert catalogue.keys[..i + 1] == catalogue.keys[..i] + [s];
        i := i + 1;
      }
      assert catalogue.keys[..|catalogue.keys|] == catalogue.keys;
    }
  }
}
