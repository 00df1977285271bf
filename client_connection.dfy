/**
 * The second client generation's connection (src/client/clientConnection.ts):
 * a registry of one `ConnectionInstance` per id, and per instance the
 * subscribe handshake with the hub, `on`/`off` of event handlers, `emit`
 * through the dispatch table of `EventHandlers`, and `unsubscribe`.
 *
 * Each closure the instance leaves on a connection is a `Handler`; the
 * transport runs one by calling the `Run…` method of that closure while it is
 * registered for the event that arrived.
 */
module Connection {
  import opened Wrappers
  import opened Js
  import opened Protocol
  import opened Ipc
  import EventHandlers

  /** The closures this generation registers on a connection. */
  datatype Handler =
    | Wrapped(owner: ConnectionInstance, event: string, user: nat)      // `on`: built-in handler, then the caller's
    | Caller(user: nat)                                                 // a caller's own function, as passed to `off`
    | OnConnect(ipc: Channel<Handler>)                                  // `subscribe`: announce the id
    | OnSubscribe(owner: ConnectionInstance, ipc: Channel<Handler>, promise: Promise<Channel<Handler>>)
    | OnError(promise: Promise<Channel<Handler>>)
    | OnUnsubscribe(owner: ConnectionInstance, done: Promise<Value>)
    | Sent(reply: EventHandlers.Reply<Handler>)                         // `emitMessage`'s correlation listener

  const HubUnreachableReason := "hub isn't reached"

  /** The settings `subscribe` lays over the library defaults before the
      caller's: `{ id, retry: 500, maxRetries: 0, silent: true }`. */
  function BaseConfig(id: string): (c: map<string, Value>)
    ensures c.Keys == {"id", "retry", "maxRetries", "silent"} && c["id"] == Str(id)
    ensures c["retry"] == Num(500) && c["maxRetries"] == Num(0) && c["silent"] == Bool(true)
  {
    map["id" := Str(id), "retry" := Num(500), "maxRetries" := Num(0), "silent" := Bool(true)]
  }

  /** `Object.assign(ipc.config, baseIpcConfig, customIpcConfig)`: the
      caller's keys win, the base keys fill in the rest, the library defaults
      whatever neither names. */
  lemma SubscribeConfig(defaults: map<string, Value>, id: string, custom: map<string, Value>)
    ensures var c := Merged(defaults, [BaseConfig(id), custom]);
      && c.Keys == defaults.Keys + BaseConfig(id).Keys + custom.Keys
      && (forall k :: k in custom ==> c[k] == custom[k])
      && ("id" !in custom ==> c["id"] == Str(id))
      && ("retry" !in custom ==> c["retry"] == Num(500))
      && ("maxRetries" !in custom ==> c["maxRetries"] == Num(0))
      && ("silent" !in custom ==> c["silent"] == Bool(true))
      && (forall k :: k in defaults && k !in BaseConfig(id) && k !in custom ==> c[k] == defaults[k])
  {
    MergedTwo(defaults, BaseConfig(id), custom);
  }

  /** `{ ...config, clientId: this.id }`: the instance's id always wins. */
  function EmitConfig(config: map<string, Value>, id: string): (r: map<string, Value>)
    ensures r.Keys == config.Keys + {"clientId"}
    ensures r["clientId"] == Str(id)
    ensures forall k :: k in config && k != "clientId" ==> r[k] == config[k]
  {
    Assign(config, map["clientId" := Str(id)])
  }

  /** A transport error means the hub cannot be reached exactly when it is a
      `connect` failure with code `ENOENT`. */
  predicate HubUnreachable(error: Value)
    ensures HubUnreachable(error) ==> error.Obj? && "syscall" in error.fields && "code" in error.fields
  {
    Field(error, "syscall") == Str(Name(ConnectEvent)) && Field(error, "code") == Str("ENOENT")
  }

  /** The rejection `subscribe` gives when the hub cannot be reached. */
  function UnreachableResult(): (r: EventResult)
    ensures r.FailedResult? && r.errorCode == HubIsNotActive
    ensures Within(r, {})
  {
    FailedResult(HubIsNotActive, HubUnreachableReason)
  }

  class ConnectionInstance {
    const id: string
    var isSubscribed: bool
    var ipc: Channel?<Handler>

    /** A fresh instance: not subscribed, no connection. */
    constructor (id: string)
      ensures this.id == id && !isSubscribed && ipc == null
    {
      this.id := id;
      isSubscribed := false;
      ipc := null;
    }

    /** `on(event, handler)`: registers a wrapper that runs the built-in
        handler for `event` and then the caller's, and hands back the
        caller's handler, not the wrapper. */
    method On(event: string, user: nat) returns (r: Completion<Handler>)
      modifies ipc
      ensures ipc == null ==>
        r == Throw(ErrorObject("You should subscribe to hub before adding event handlers"))
      ensures ipc != null ==>
        && r == Normal(Caller(user))
        && ipc.listeners == old(ipc.listeners) + [Listener(event, Wrapped(this, event, user))]
        && ipc.trace == old(ipc.trace) && ipc.config == old(ipc.config)
    {
      if ipc == null {
        return Throw(ErrorObject("You should subscribe to hub before adding event handlers"));
      }
      ipc.On(event, Wrapped(this, event, user));
      r := Normal(Caller(user));
    }

    method Off(event: string, handler: Handler) returns (r: Completion<()>)
      modifies ipc
      ensures ipc == null ==>
        r == Throw(ErrorObject("You should subscribe to hub before removing event handlers"))
      ensures ipc != null ==>
        && r == Normal(())
        && ipc.listeners == Without(old(ipc.listeners), event, handler)
        && ipc.trace == old(ipc.trace) && ipc.config == old(ipc.config)
    {
      if ipc == null {
        return Throw(ErrorObject("You should subscribe to hub before removing event handlers"));
      }
      ipc.Off(event, handler);
      r := Normal(());
    }

    /** `emit(event, config)`: the config goes to the handler `emitHandlers`
        has for `event`, with `clientId` set to this instance's id.
        `messageId` is the draw `emitMessage` makes. */
    method Emit(event: string, config: map<string, Value>, messageId: int) returns (r: Completion<Promise<Value>>)
      requires 0 <= messageId < 1000000
      modifies ipc
      ensures ipc == null ==>
        r == Throw(ErrorObject("You should subscribe to hub before performing events"))
      ensures ipc != null && EventHandlers.EmitHandlerFor(event).None? ==>
        && r.Throw? && unchanged(ipc)
      ensures ipc != null && EventHandlers.EmitHandlerFor(event) == Some(EventHandlers.EmitMessage) ==>
        && r.Normal? && fresh(r.value) && r.value.state == Pending
        && ipc.trace == old(ipc.trace) +
             [Emitted(Name(MessageEvent), Obj(EventHandlers.WithMessageIdField(EmitConfig(config, id), messageId)))]
        && ipc.listeners == old(ipc.listeners) + [Listener(SentEvent(Num(messageId)),
             Sent(EventHandlers.MessageReply(ipc, SentEvent(Num(messageId)), r.value)))]
        && ipc.config == old(ipc.config)
      ensures ipc != null && EventHandlers.EmitHandlerFor(event) == Some(EventHandlers.EmitListOfSubscribers) ==>
        && r.Normal? && fresh(r.value) && r.value.state == Pending
        && ipc.trace == old(ipc.trace) + [Emitted(Name(ListOfSubscribersEvent), Obj(EmitConfig(config, id)))]
        && ipc.listeners == old(ipc.listeners) && ipc.config == old(ipc.config)
    {
      if ipc == null {
        return Throw(ErrorObject("You should subscribe to hub before performing events"));
      }
      var emitConfig := EmitConfig(config, id);
      match EventHandlers.EmitHandlerFor(event)
      case None =>
        r := Throw(TypeError);
      case Some(EmitMessage) =>
        var p := EventHandlers.SendMessage(ipc, emitConfig, messageId, (reply: EventHandlers.Reply<Handler>) => Sent(reply));
        r := Normal(p);
      case Some(EmitListOfSubscribers) =>
        var p := EventHandlers.ListOfSubscribers(ipc, emitConfig);
        r := Normal(p);
    }

    /** `subscribe(customIpcConfig)`: a new connection (`ipc`), configured,
        with the three handshake handlers registered on it. Nothing on the
        instance changes until the hub answers. */
    method Subscribe(custom: map<string, Value>, defaults: map<string, Value>)
      returns (p: Promise<Channel<Handler>>, ipc: Channel<Handler>)
      ensures fresh(p) && fresh(ipc) && p.state == Pending
      ensures ipc.config == Merged(defaults, [BaseConfig(id), custom])
      ensures ipc.trace == []
      ensures ipc.listeners == [
        Listener(Name(ConnectEvent), OnConnect(ipc)),
        Listener(Name(SubscribeEvent), OnSubscribe(this, ipc, p)),
        Listener("error", OnError(p))]
    {
      p := new Promise();
      ipc := new Channel(defaults);
      ipc.Configure([BaseConfig(id), custom]);
      ipc.On(Name(ConnectEvent), OnConnect(ipc));
      ipc.On(Name(SubscribeEvent), OnSubscribe(this, ipc, p));
      ipc.On("error", OnError(p));
    }

    /** `unsubscribe()`: waits for the hub's `unsubscribe` reply and asks the
        hub to drop this id. */
    method Unsubscribe() returns (r: Completion<Promise<Value>>)
      modifies ipc
      ensures ipc == null ==>
        r == Throw(ErrorObject("You should subscribe to hub before unsubscribing"))
      ensures ipc != null ==>
        && r.Normal? && fresh(r.value) && r.value.state == Pending
        && ipc.listeners == old(ipc.listeners) + [Listener(Name(UnsubscribeEvent), OnUnsubscribe(this, r.value))]
        && ipc.trace == old(ipc.trace) + [Emitted(Name(UnsubscribeEvent), Obj(map["id" := Str(id)]))]
        && ipc.config == old(ipc.config)
    {
      if ipc == null {
        return Throw(ErrorObject("You should subscribe to hub before unsubscribing"));
      }
      var p := new Promise();
      ipc.On(Name(UnsubscribeEvent), OnUnsubscribe(this, p));
      ipc.Emit(Name(UnsubscribeEvent), Obj(map["id" := Str(id)]));
      r := Normal(p);
    }

    /** The wrapper `on` registered runs: `onHandlers[event](this.ipc, data)`
        first (an event without a built-in handler throws there), then the
        caller's handler. */
    method RunWrapped(channel: Channel<Handler>, event: string, user: nat, data: Value) returns (r: Completion<()>)
      requires Listener(event, Wrapped(this, event, user)) in channel.listeners
      modifies ipc, channel
      ensures (EventHandlers.OnHandlerFor(event).None? || ipc == null || !Readable(data)) ==>
        r == Throw(TypeError) && unchanged(channel) && (ipc != null ==> unchanged(ipc))
      ensures EventHandlers.OnHandlerFor(event).Some? && ipc == channel && Readable(data) ==>
        && r == Normal(())
        && channel.trace == old(channel.trace) +
             [Emitted(SentEvent(Field(data, "messageId")), Undefined), Called(user, data)]
        && channel.listeners == old(channel.listeners) && channel.config == old(channel.config)
      ensures EventHandlers.OnHandlerFor(event).Some? && ipc != null && ipc != channel && Readable(data) ==>
        && r == Normal(())
        && ipc.trace == old(ipc.trace) + [Emitted(SentEvent(Field(data, "messageId")), Undefined)]
        && channel.trace == old(channel.trace) + [Called(user, data)]
        && ipc.listeners == old(ipc.listeners) && ipc.config == old(ipc.config)
        && channel.listeners == old(channel.listeners) && channel.config == old(channel.config)
    {
      if EventHandlers.OnHandlerFor(event).None? {
        return Throw(TypeError);
      }
      if ipc == null {
        return Throw(TypeError);
      }
      r := EventHandlers.OnMessageAck(ipc, data);
      if r.Throw? {
        return;
      }
      channel.Call(user, data);
    }

    /** The hub's `subscribe` reply: a success stores the connection, marks
        the instance subscribed and resolves; anything else rejects and
        leaves the instance as it was. */
    method RunOnSubscribe(channel: Channel<Handler>, p: Promise<Channel<Handler>>, response: Value)
      requires Listener(Name(SubscribeEvent), OnSubscribe(this, channel, p)) in channel.listeners
      modifies this, p
      ensures IsSuccess(response) ==>
        ipc == channel && isSubscribed && p.state == Settle(old(p.state), Fulfilled(channel))
      ensures !IsSuccess(response) ==>
        ipc == old(ipc) && isSubscribed == old(isSubscribed) && p.state == Settle(old(p.state), Rejected(response))
    {
      if IsSuccess(response) {
        ipc := channel;
        isSubscribed := true;
        p.Resolve(channel);
      } else {
        p.Reject(response);
      }
    }

    /** The hub's `unsubscribe` reply: resolve with `true`, then disconnect
        `this.ipc`. Neither `isSubscribed` nor the stored connection is
        cleared. */
    method RunOnUnsubscribe(channel: Channel<Handler>, p: Promise<Value>, data: Value) returns (r: Completion<()>)
      requires Listener(Name(UnsubscribeEvent), OnUnsubscribe(this, p)) in channel.listeners
      modifies p, ipc
      ensures p.state == Settle(old(p.state), Fulfilled(Bool(true)))
      ensures ipc != null ==>
        && r == Normal(()) && ipc.trace == old(ipc.trace) + [Disconnected]
        && ipc.listeners == old(ipc.listeners) && ipc.config == old(ipc.config)
      ensures ipc == null ==> r.Throw?
    {
      p.Resolve(Bool(true));
      if ipc == null {
        return Throw(TypeError);
      }
      ipc.Disconnect();
      r := Normal(());
    }
  }

  /** The `connect` handler: announce the configured id to the hub. */
  method RunOnConnect(channel: Channel<Handler>)
    requires Listener(Name(ConnectEvent), OnConnect(channel)) in channel.listeners
    modifies channel
    ensures channel.trace == old(channel.trace) +
      [Emitted(Name(SubscribeEvent), Obj(map["id" := Field(Obj(channel.config), "id")]))]
    ensures channel.listeners == old(channel.listeners) && channel.config == old(channel.config)
  {
    channel.Emit(Name(SubscribeEvent), Obj(map["id" := Field(Obj(channel.config), "id")]));
  }

  /** The transport's `error` handler: only an unreachable hub rejects the
      subscription; every other error is ignored. */
  method RunOnError(channel: Channel<Handler>, p: Promise<Channel<Handler>>, error: Value)
    requires Listener("error", OnError(p)) in channel.listeners
    modifies p
    ensures p.state == if HubUnreachable(error)
      then Settle(old(p.state), Rejected(Encode(UnreachableResult())))
      else old(p.state)
  {
    if HubUnreachable(error) {
      p.Reject(Encode(UnreachableResult()));
    }
  }

  /** `on` hands back the caller's handler, not the wrapper it registered,
      so passing the result to `off` leaves the wrapper in place. */
  lemma OffWithReturnedHandlerKeepsWrapper(ls: seq<Listener<Handler>>, owner: ConnectionInstance, event: string, user: nat)
    requires Listener(event, Wrapped(owner, event, user)) in ls
    ensures Listener(event, Wrapped(owner, event, user)) in Without(ls, event, Caller(user))
  {
    var i :| 0 <= i < |ls| && ls[i] == Listener(event, Wrapped(owner, event, user));
    assert ls[i] != Listener(event, Caller(user));
  }

  /** The module-level `connections` map: one instance per id. */
  class Registry {
    var connections: map<string, ConnectionInstance>

    ghost predicate Valid()
      reads this
    {
      forall k :: k in connections ==> connections[k].id == k
    }

    constructor ()
      ensures connections == map[] && Valid()
    {
      connections := map[];
    }

    /** `new ConnectionInstance(id)`: the registered instance for a known id,
        unchanged; otherwise a fresh unsubscribed instance, registered. */
    method New(id: string) returns (c: ConnectionInstance)
      requires Valid()
      modifies this
      ensures Valid() && c.id == id
      ensures id in old(connections) ==> c == old(connections)[id] && connections == old(connections)
      ensures id !in old(connections) ==>
        fresh(c) && !c.isSubscribed && c.ipc == null && connections == old(connections)[id := c]
    {
      if id in connections {
        return connections[id];
      }
      c := new ConnectionInstance(id);
      connections := connections[id := c];
    }
  }
}
