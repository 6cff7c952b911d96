/**
 * The IPCRegistry of IPC/ipc.registry.ts: a channel -> handler map whose changes are mirrored
 * into ipcMain's table of invoke handlers.
 *
 * ipcMain is an object holding the handler table Electron keeps and the log of calls made on it.
 * Electron's `ipcMain.handle` refuses a channel that already has a handler (it throws "Attempted
 * to register a second handler for '<channel>'"); `removeHandler` of an absent channel is harmless.
 */
module IpcRegistry {
  import opened Common
  import opened OrderedMap

  /** A handler function, told apart by identity. */
  type Handler = nat

  datatype IpcMainCall = HandleCall(channel: string, handler: Handler) | RemoveCall(channel: string)

  /** The removeHandler calls for the first `i` channels, in order. */
  function RemoveCalls(channels: seq<string>, i: nat): (r: seq<IpcMainCall>)
    requires i <= |channels|
    ensures |r| == i
    ensures forall j :: 0 <= j < i ==> r[j] == RemoveCall(channels[j])
    decreases i
  {
    if i == 0 then [] else RemoveCalls(channels, i - 1) + [RemoveCall(channels[i - 1])]
  }

  /**
   * Clearing a registry calls removeHandler exactly once per registered channel: every call
   * names a registered channel, every registered channel is named, and no two calls repeat.
   */
  lemma ClearRemovesEachOnce(m: OMap<string, Handler>)
    requires m.Valid()
    ensures var r := RemoveCalls(m.keys, |m.keys|);
            (forall ch :: RemoveCall(ch) in r <==> ch in m.vals) &&
            (forall j, k :: 0 <= j < k < |r| ==> r[j] != r[k])
  {
    var r := RemoveCalls(m.keys, |m.keys|);
    forall ch | ch in m.vals
      ensures RemoveCall(ch) in r
    {
      assert ch in m.keys;
      var j :| 0 <= j < |m.keys| && m.keys[j] == ch;
      assert r[j] == RemoveCall(ch);
    }
  }

  /** ipcMain, as far as the registry uses it. */
  class IpcMain {
    /** The channel -> handler table ipcMain keeps for `invoke`. */
    var table: map<string, Handler>
    /** Every call made on ipcMain, oldest first. */
    var calls: seq<IpcMainCall>

    constructor ()
      ensures table == map[] && calls == []
    {
      table := map[];
      calls := [];
    }

    /** `ipcMain.handle(channel, handler)`: refused when the channel already has a handler. */
    method Handle(channel: string, handler: Handler) returns (r: Result<()>)
      modifies this
      ensures calls == old(calls) + [HandleCall(channel, handler)]
      ensures channel in old(table) ==>
                r == Err(Thrown("Attempted to register a second handler for '" + channel + "'")) && table == old(table)
      ensures channel !in old(table) ==> r == Ok(()) && table == old(table)[channel := handler]
    {
      calls := calls + [HandleCall(channel, handler)];
      if channel in table {
        return Err(Thrown("Attempted to register a second handler for '" + channel + "'"));
      }
      table := table[channel := handler];
      r := Ok(());
    }

    /** `ipcMain.removeHandler(channel)`. */
    method RemoveHandler(channel: string)
      modifies this
      ensures calls == old(calls) + [RemoveCall(channel)]
      ensures table == old(table) - {channel}
    {
      calls := calls + [RemoveCall(channel)];
      table := table - {channel};
    }
  }

  class IPCRegistry {
    const main: IpcMain
    var handlers: OMap<string, Handler>

    ghost predicate Valid()
      reads this
    {
      handlers.Valid()
    }

    /** ipcMain serves exactly the handlers the registry holds. */
    ghost predicate Mirrors()
      reads this, main
    {
      handlers.vals == main.table
    }

    constructor (ipcMain: IpcMain)
      ensures Valid() && main == ipcMain && handlers == Empty()
    {
      main := ipcMain;
      handlers := Empty();
    }

    /**
     * `register(channel, handler)` as written: the map takes the new handler in every case, then
     * ipcMain.handle is called, which refuses a channel the registry already had. Registering a
     * new channel keeps ipcMain in step; re-registering one throws and leaves ipcMain serving the
     * old handler.
     */
    method Register(channel: string, handler: Handler) returns (r: Result<()>)
      requires Valid()
      modifies this, main
      ensures Valid()
      ensures handlers == old(handlers).Set(channel, handler)
      ensures main.calls == old(main.calls) + [HandleCall(channel, handler)]
      ensures r.Ok? <==> channel !in old(main.table)
      ensures old(Mirrors()) && channel !in old(handlers.vals) ==> Mirrors()
      ensures old(Mirrors()) && channel in old(handlers.vals) ==>
                channel in main.table && main.table[channel] == old(handlers.vals[channel]) &&
                handlers.vals[channel] == handler
    {
      handlers := handlers.Set(channel, handler);
      r := main.Handle(channel, handler);
    }

    /**
     * `register` as evidently intended: overwriting a channel first removes ipcMain's old
     * handler, so ipcMain always serves what the registry holds.
     */
    method RegisterReplacing(channel: string, handler: Handler) returns (r: Result<()>)
      requires Valid()
      modifies this, main
      ensures Valid()
      ensures handlers == old(handlers).Set(channel, handler)
      ensures main.calls == old(main.calls) +
                (if channel in old(handlers.vals) then [RemoveCall(channel)] else []) + [HandleCall(channel, handler)]
      ensures old(Mirrors()) ==> Mirrors() && r == Ok(())
    {
      if handlers.Has(channel) {
        main.RemoveHandler(channel);
      }
      handlers := handlers.Set(channel, handler);
      r := main.Handle(channel, handler);
    }

    /** `unregister(channel)`: an unknown channel changes nothing; a known one is deleted and removed from ipcMain. */
    method Unregister(channel: string)
      requires Valid()
      modifies this, main
      ensures Valid()
      ensures old(Mirrors()) ==> Mirrors()
      ensures channel !in old(handlers.vals) ==> handlers == old(handlers) && unchanged(main)
      ensures channel in old(handlers.vals) ==>
                handlers == old(handlers).Delete(channel) &&
                main.calls == old(main.calls) + [RemoveCall(channel)] && main.table == old(main.table) - {channel}
    {
      if handlers.Has(channel) {
        handlers := handlers.Delete(channel);
        main.RemoveHandler(channel);
      }
    }

    /** `clear()`: removes every channel's handler from ipcMain, in map order, then empties the map. */
    method Clear()
      requires Valid()
      modifies this, main
      ensures Valid() && handlers == Empty()
      ensures main.calls == old(main.calls) + RemoveCalls(old(handlers.keys), |old(handlers.keys)|)
      ensures main.table == old(main.table) - old(handlers.vals.Keys)
      ensures old(Mirrors()) ==> Mirrors()
    {
      var keys := handlers.keys;
      var i := 0;
      while i < |keys|
        invariant 0 <= i <= |keys|
        invariant handlers == old(handlers)
        invariant main.calls == old(main.calls) + RemoveCalls(keys, i)
        invariant main.table == old(main.table) - set j | 0 <= j < i :: keys[j]
      {
        main.RemoveHandler(keys[i]);
        i := i + 1;
      }
      assert (set j | 0 <= j < |keys| :: keys[j]) == handlers.vals.Keys by {
        forall ch | ch in handlers.vals.Keys
          ensures ch in set j | 0 <= j < |keys| :: keys[j]
        {
          assert ch in keys;
          var j :| 0 <= j < |keys| && keys[j] == ch;
        }
      }
      handlers := Empty();
    }
  }

  /**
   * Registering a channel twice, as written, throws on the second call and leaves the registry
   * and ipcMain disagreeing about the handler; the replacing registration does neither.
   */
  method RegisterTwice(channel: string, h1: Handler, h2: Handler)
    returns (asWritten: Result<()>, asWrittenHolds: Handler, asWrittenServes: Handler,
             replacing: Result<()>, replacingServes: Handler)
    ensures asWritten.Err? && asWrittenHolds == h2 && asWrittenServes == h1
    ensures replacing == Ok(()) && replacingServes == h2
  {
    var main := new IpcMain();
    var reg := new IPCRegistry(main);
    assert reg.Mirrors();
    var _ := reg.Register(channel, h1);
    asWritten := reg.Register(channel, h2);
    asWrittenHolds := reg.handlers.vals[channel];
    asWrittenServes := main.table[channel];

    var main' := new IpcMain();
    var reg' := new IPCRegistry(main');
    assert reg'.Mirrors();
    var _ := reg'.RegisterReplacing(channel, h1);
    replacing := reg'.RegisterReplacing(channel, h2);
    replacingServes := main'.table[channel];
  }
}
