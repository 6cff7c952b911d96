/**
 * The CommandBus of OsAI/command.bus.ts: routes (target, action, payload) commands to the handler
 * registered for the target, emitting an event before and after each command.
 *
 * The `handlers` map is declared but never assigned, so on a bus built by `new CommandBus()` it is
 * undefined and every method throws a TypeError at its first use of it. The bus is modelled with
 * `handlers` as an optional map: None is the bus as written, and the `WithHandlerMap` constructor
 * builds the bus as evidently intended. A handler is told apart by identity; what calling it
 * returns or throws is a parameter of `exec`.
 */
module Commands {
  import opened Common
  import opened OrderedMap

  /** A registered handler function. */
  type Handler = nat

  /** The events the bus emits, with their payloads. */
  datatype BusEvent =
    | HandlerRegistered(target: string)
    | HandlerUnregistered(target: string)
    | Executing(target: string, action: string, payload: Value)
    | Executed(target: string, action: string, payload: Value, res: Value)
    | Failed(target: string, action: string, error: Error)

  /** One call of a handler, with the arguments it received. */
  datatype Invocation = Invocation(handler: Handler, action: string, payload: Value)

  /** The message of the error thrown for a target without a handler. */
  function NoHandlerMessage(target: string): string {
    "No handler registered for target " + target
  }

  /**
   * What `exec(target, action, payload)` returns and emits, when calling the target's handler
   * would give `outcome`: nothing at all when the map is undefined; otherwise 'command.executing'
   * first, then either 'command.failed' with the error thrown (no handler, or the handler threw)
   * or 'command.executed' with the handler's result, which is returned.
   */
  function ExecOutcome(handlers: Option<OMap<string, Handler>>, target: string, action: string, payload: Value,
                       outcome: Result<Value>): (r: (Result<Value>, seq<BusEvent>))
    ensures handlers.None? ==> r == (Err(TypeError), [])
    ensures handlers.Some? ==> |r.1| == 2 && r.1[0] == Executing(target, action, payload)
    ensures handlers.Some? && !handlers.value.Has(target) ==>
              r.0 == Err(Thrown(NoHandlerMessage(target))) && r.1[1] == Failed(target, action, r.0.error)
    ensures handlers.Some? && handlers.value.Has(target) ==> r.0 == outcome
    ensures handlers.Some? && r.0.Ok? ==> r.1[1] == Executed(target, action, payload, r.0.value)
    ensures handlers.Some? && r.0.Err? ==> r.1[1] == Failed(target, action, r.0.error)
  {
    if handlers.None? then (Err(TypeError), [])
    else
      var start := [Executing(target, action, payload)];
      if !handlers.value.Has(target) then
        var err := Thrown(NoHandlerMessage(target));
        (Err(err), start + [Failed(target, action, err)])
      else if outcome.Ok? then
        (outcome, start + [Executed(target, action, payload, outcome.value)])
      else
        (outcome, start + [Failed(target, action, outcome.error)])
  }

  class CommandBus {
    var handlers: Option<OMap<string, Handler>>
    /** The events emitted, oldest first. */
    var emitted: seq<BusEvent>
    /** The handler calls made, oldest first. */
    var invoked: seq<Invocation>

    ghost predicate Valid()
      reads this
    {
      handlers.Some? ==> handlers.value.Valid()
    }

    /** `new CommandBus()` as written: the handler map is left undefined. */
    constructor ()
      ensures Valid() && handlers == None && emitted == [] && invoked == []
    {
      handlers := None;
      emitted := [];
      invoked := [];
    }

    /** The bus as evidently intended, with `handlers = new Map()`. */
    constructor WithHandlerMap()
      ensures Valid() && handlers == Some(Empty()) && emitted == [] && invoked == []
    {
      handlers := Some(Empty());
      emitted := [];
      invoked := [];
    }

    /** `registerHandler(target, handler)`: sets (or overwrites) the target's handler and emits 'handler.registered'. */
    method RegisterHandler(target: string, handler: Handler) returns (r: Result<()>)
      requires Valid()
      modifies this
      ensures Valid() && invoked == old(invoked)
      ensures old(handlers).None? ==> r == Err(TypeError) && handlers == None && emitted == old(emitted)
      ensures old(handlers).Some? ==>
                r == Ok(()) && handlers == Some(old(handlers).value.Set(target, handler)) &&
                emitted == old(emitted) + [HandlerRegistered(target)]
    {
      if handlers.None? {
        return Err(TypeError);
      }
      handlers := Some(handlers.value.Set(target, handler));
      emitted := emitted + [HandlerRegistered(target)];
      r := Ok(());
    }

    /** `unregisterHandler(target)`: deletes the target and emits 'handler.unregistered', even for an absent target. */
    method UnregisterHandler(target: string) returns (r: Result<()>)
      requires Valid()
      modifies this
      ensures Valid() && invoked == old(invoked)
      ensures old(handlers).None? ==> r == Err(TypeError) && handlers == None && emitted == old(emitted)
      ensures old(handlers).Some? ==>
                r == Ok(()) && handlers == Some(old(handlers).value.Delete(target)) &&
                emitted == old(emitted) + [HandlerUnregistered(target)]
    {
      if handlers.None? {
        return Err(TypeError);
      }
      handlers := Some(handlers.value.Delete(target));
      emitted := emitted + [HandlerUnregistered(target)];
      r := Ok(());
    }

    /**
     * `exec(target, action, payload)`: see ExecOutcome; the handler, when there is one, is called
     * once with the action and payload.
     */
    method Exec(target: string, action: string, payload: Value, outcome: Result<Value>) returns (r: Result<Value>)
      requires Valid()
      modifies this`emitted, this`invoked
      ensures r == ExecOutcome(handlers, target, action, payload, outcome).0
      ensures emitted == old(emitted) + ExecOutcome(handlers, target, action, payload, outcome).1
      ensures invoked == old(invoked) +
                if handlers.Some? && handlers.value.Has(target)
                then [Invocation(handlers.value.vals[target], action, payload)] else []
    {
      if handlers.None? {
        return Err(TypeError);
      }
      var handler := handlers.value.Get(target);
      emitted := emitted + [Executing(target, action, payload)];
      if handler.None? {
        var err := Thrown(NoHandlerMessage(target));
        emitted := emitted + [Failed(target, action, err)];
        return Err(err);
      }
      invoked := invoked + [Invocation(handler.value, action, payload)];
      if outcome.Ok? {
        emitted := emitted + [Executed(target, action, payload, outcome.value)];
      } else {
        emitted := emitted + [Failed(target, action, outcome.error)];
      }
      r := outcome;
    }

    /** `listHandlers()`: the registered targets, each once, in registration order. */
    function ListHandlers(): (r: Result<seq<string>>)
      requires Valid()
      reads this
      ensures handlers.None? <==> r == Err(TypeError)
      ensures handlers.Some? ==> r.Ok? && Distinct(r.value) && forall t :: t in r.value <==> handlers.value.Has(t)
    {
      if handlers.None? then Err(TypeError) else Ok(handlers.value.keys)
    }
  }

  /**
   * On a bus built as written every operation throws a TypeError, before any event is emitted
   * and before any handler is called.
   */
  method FreshBusRejectsEverything(target: string, handler: Handler, action: string, payload: Value,
                                   outcome: Result<Value>)
    returns (registered: Result<()>, executed: Result<Value>, listed: Result<seq<string>>, events: seq<BusEvent>)
    ensures registered == Err(TypeError) && executed == Err(TypeError) && listed == Err(TypeError)
    ensures events == []
  {
    var bus := new CommandBus();
    registered := bus.RegisterHandler(target, handler);
    executed := bus.Exec(target, action, payload, outcome);
    listed := bus.ListHandlers();
    events := bus.emitted;
  }

  /**
   * On a bus with its map, a command for a registered target returns what the handler returns,
   * after 'command.executing' and with 'command.executed' last; a command for another target
   * throws "No handler registered for target ..." after 'command.failed'.
   */
  method RegisteredHandlerRuns(target: string, other: string, handler: Handler, action: string,
                               payload: Value, res: Value)
    returns (executed: Result<Value>, missing: Result<Value>, events: seq<BusEvent>)
    requires other != target
    ensures executed == Ok(res)
    ensures missing == Err(Thrown(NoHandlerMessage(other)))
    ensures events == [HandlerRegistered(target),
                       Executing(target, action, payload), Executed(target, action, payload, res),
                       Executing(other, action, payload), Failed(other, action, Thrown(NoHandlerMessage(other)))]
  {
    var bus := new CommandBus.WithHandlerMap();
    var _ := bus.RegisterHandler(target, handler);
    executed := bus.Exec(target, action, payload, Ok(res));
    missing := bus.Exec(other, action, payload, Ok(res));
    events := bus.emitted;
  }
}
