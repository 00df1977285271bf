/**
 * The legacy client (src/index.ts): a `connections` object with one
 * `IPCConnection` per id, and per instance `on`/`off`, `onMessage`
 * (acknowledge, then hand over), `send`, the subscribe handshake, and
 * `unsubscribe`. It waits for `subscribed` and `unsubscribed` replies.
 *
 * Each closure the instance leaves on a connection is a `Handler`; the
 * transport runs one by calling the `Run…` method of that closure while it is
 * registered for the event that arrived.
 */
module LegacyClient {
  import opened Js
  import opened Protocol
  import opened Ipc

  /** The closures this client registers on a connection. */
  datatype Handler =
    | Caller(user: nat)                                                 // `on`: the caller's function itself
    | AckThenCall(owner: IPCConnection, user: nat)                      // `onMessage`'s wrapper
    | OnSendReply(owner: IPCConnection, event: string, result: Promise<Value>)
    | OnConnect(ipc: Channel<Handler>)
    | OnSubscribed(owner: IPCConnection, ipc: Channel<Handler>, promise: Promise<Channel<Handler>>)
    | OnDisconnect                                                      // logs only
    | OnUnsubscribed(owner: IPCConnection, done: Promise<Value>)

  const SubscribedEvent := "subscribed"
  const UnsubscribedEvent := "unsubscribed"
  const DisconnectEvent := "disconnect"

  /** The settings `subscribe` writes one by one over the library defaults. */
  function SubscribeSettings(defaults: map<string, Value>, id: string): (c: map<string, Value>)
    ensures c.Keys == defaults.Keys + {"id", "retry", "maxRetries", "silent"}
    ensures c["id"] == Str(id) && c["retry"] == Num(2000) && c["maxRetries"] == Bool(true) && c["silent"] == Bool(true)
    ensures forall k :: k in defaults && k !in {"id", "retry", "maxRetries", "silent"} ==> c[k] == defaults[k]
  {
    defaults["id" := Str(id)]["retry" := Num(2000)]["maxRetries" := Bool(true)]["silent" := Bool(true)]
  }

  /** The object `send` emits: `{ from_id, to_id, message, message_id }`. */
  function SendPayload(from: string, to: string, message: Value, messageId: int): (r: Value)
    ensures r.Obj? && r.fields.Keys == {"from_id", "to_id", "message", "message_id"}
    ensures Field(r, "from_id") == Str(from) && Field(r, "to_id") == Str(to)
    ensures Field(r, "message") == message && Field(r, "message_id") == Num(messageId)
  {
    Obj(map["from_id" := Str(from), "to_id" := Str(to), "message" := message, "message_id" := Num(messageId)])
  }

  class IPCConnection {
    const id: string
    var ipc: Channel?<Handler>

    constructor (id: string)
      ensures this.id == id && ipc == null
    {
      this.id := id;
      ipc := null;
    }

    method On(event: string, user: nat) returns (r: Completion<Handler>)
      modifies ipc
      ensures ipc == null ==>
        r == Throw(ErrorObject("You should subscribe to hub before adding event handlers"))
      ensures ipc != null ==>
        && r == Normal(Caller(user))
        && ipc.listeners == old(ipc.listeners) + [Listener(event, Caller(user))]
        && ipc.trace == old(ipc.trace) && ipc.config == old(ipc.config)
    {
      if ipc == null {
        return Throw(ErrorObject("You should subscribe to hub before adding event handlers"));
      }
      ipc.On(event, Caller(user));
      r := Normal(Caller(user));
    }

    /** `off`: its missing-connection error speaks of adding handlers, as
        `on`'s does. */
    method Off(event: string, handler: Handler) returns (r: Completion<()>)
      modifies ipc
      ensures ipc == null ==>
        r == Throw(ErrorObject("You should subscribe to hub before adding event handlers"))
      ensures ipc != null ==>
        && r == Normal(())
        && ipc.listeners == Without(old(ipc.listeners), event, handler)
        && ipc.trace == old(ipc.trace) && ipc.config == old(ipc.config)
    {
      if ipc == null {
        return Throw(ErrorObject("You should subscribe to hub before adding event handlers"));
      }
      ipc.Off(event, handler);
      r := Normal(());
    }

    method OnMessage(user: nat) returns (r: Completion<Handler>)
      modifies ipc
      ensures ipc == null ==>
        r == Throw(ErrorObject("You should subscribe to hub before adding event handlers"))
      ensures ipc != null ==>
        && r == Normal(Caller(user))
        && ipc.listeners == old(ipc.listeners) + [Listener(Name(MessageEvent), AckThenCall(this, user))]
        && ipc.trace == old(ipc.trace) && ipc.config == old(ipc.config)
    {
      if ipc == null {
        return Throw(ErrorObject("You should subscribe to hub before adding event handlers"));
      }
      ipc.On(Name(MessageEvent), AckThenCall(this, user));
      r := Normal(Caller(user));
    }

    /** `send(to, message)`: a missing connection rejects the promise; the
        reply, whatever it says, resolves it. */
    method Send(to: string, message: Value, messageId: int) returns (p: Promise<Value>)
      requires 0 <= messageId < 1000000
      modifies ipc
      ensures fresh(p)
      ensures ipc == null ==>
        p.state == Rejected(ErrorObject("You should subscribe to hub before sending messages"))
      ensures ipc != null ==>
        && p.state == Pending
        && ipc.trace == old(ipc.trace) + [Emitted(Name(MessageEvent), SendPayload(id, to, message, messageId))]
        && ipc.listeners == old(ipc.listeners) +
             [Listener(SentEvent(Num(messageId)), OnSendReply(this, SentEvent(Num(messageId)), p))]
        && ipc.config == old(ipc.config)
    {
      if ipc == null {
        p := new Promise.Thrown(ErrorObject("You should subscribe to hub before sending messages"));
        return;
      }
      p := new Promise();
      ipc.Emit(Name(MessageEvent), SendPayload(id, to, message, messageId));
      var event := SentEvent(Num(messageId));
      ipc.On(event, OnSendReply(this, event, p));
    }

    /** `subscribe()`: a new connection configured with this id, retry 2000,
        unlimited retries and silence, and its handshake handlers. The
        promise resolves only on a `subscribed` reply and is never rejected. */
    method Subscribe(defaults: map<string, Value>) returns (p: Promise<Channel<Handler>>, ipc: Channel<Handler>)
      ensures fresh(p) && fresh(ipc) && p.state == Pending
      ensures ipc.config == SubscribeSettings(defaults, id)
      ensures ipc.trace == []
      ensures ipc.listeners == [
        Listener(Name(ConnectEvent), OnConnect(ipc)),
        Listener(SubscribedEvent, OnSubscribed(this, ipc, p)),
        Listener(DisconnectEvent, OnDisconnect)]
    {
      p := new Promise();
      ipc := new Channel(defaults);
      ipc.config := ipc.config["id" := Str(id)];
      ipc.config := ipc.config["retry" := Num(2000)];
      ipc.config := ipc.config["maxRetries" := Bool(true)];
      ipc.config := ipc.config["silent" := Bool(true)];
      ipc.On(Name(ConnectEvent), OnConnect(ipc));
      ipc.On(SubscribedEvent, OnSubscribed(this, ipc, p));
      ipc.On(DisconnectEvent, OnDisconnect);
    }

    /** `unsubscribe()`: waits for `unsubscribed` and asks the hub to drop
        this id. */
    method Unsubscribe() returns (r: Completion<Promise<Value>>)
      modifies ipc
      ensures ipc == null ==>
        r == Throw(ErrorObject("You should subscribe to hub before unsubscribing"))
      ensures ipc != null ==>
        && r.Normal? && fresh(r.value) && r.value.state == Pending
        && ipc.listeners == old(ipc.listeners) + [Listener(UnsubscribedEvent, OnUnsubscribed(this, r.value))]
        && ipc.trace == old(ipc.trace) + [Emitted(Name(UnsubscribeEvent), Obj(map["id" := Str(id)]))]
        && ipc.config == old(ipc.config)
    {
      if ipc == null {
        return Throw(ErrorObject("You should subscribe to hub before unsubscribing"));
      }
      var p := new Promise();
      ipc.On(UnsubscribedEvent, OnUnsubscribed(this, p));
      ipc.Emit(Name(UnsubscribeEvent), Obj(map["id" := Str(id)]));
      r := Normal(p);
    }

    method RunAckThenCall(channel: Channel<Handler>, user: nat, data: Value) returns (r: Completion<()>)
      requires Listener(Name(MessageEvent), AckThenCall(this, user)) in channel.listeners
      modifies ipc, channel
      ensures ipc == null ==> r == Throw(TypeError) && unchanged(channel)
      ensures ipc != null && !Readable(data) ==> r == Throw(TypeError) && unchanged(ipc, channel)
      ensures ipc == channel && Readable(data) ==>
        && r == Normal(())
        && channel.trace == old(channel.trace) +
             [Emitted(SentEvent(Field(data, "message_id")), Undefined), Called(user, data)]
        && channel.listeners == old(channel.listeners) && channel.config == old(channel.config)
      ensures ipc != null && ipc != channel && Readable(data) ==>
        && r == Normal(())
        && ipc.trace == old(ipc.trace) + [Emitted(SentEvent(Field(data, "message_id")), Undefined)]
        && channel.trace == old(channel.trace) + [Called(user, data)]
        && ipc.listeners == old(ipc.listeners) && ipc.config == old(ipc.config)
        && channel.listeners == old(channel.listeners) && channel.config == old(channel.config)
    {
      if ipc == null {
        return Throw(TypeError);
      }
      if !Readable(data) {
        return Throw(TypeError);
      }
      ipc.Emit(SentEvent(Field(data, "message_id")), Undefined);
      channel.Call(user, data);
      r := Normal(());
    }

    /** The correlation listener of a `send` runs: it resolves with the reply,
        success or not, and every listener for the event goes. */
    method RunOnSendReply(channel: Channel<Handler>, event: string, p: Promise<Value>, data: Value)
      returns (r: Completion<()>)
      requires Listener(event, OnSendReply(this, event, p)) in channel.listeners
      modifies p, ipc
      ensures p.state == Settle(old(p.state), Fulfilled(data))
      ensures ipc == null ==> r == Throw(TypeError)
      ensures ipc != null ==>
        && r == Normal(())
        && ipc.listeners == WithoutEvent(old(ipc.listeners), event)
        && HandlersFor(ipc.listeners, event) == []
        && ipc.trace == old(ipc.trace) && ipc.config == old(ipc.config)
    {
      p.Resolve(data);
      if ipc == null {
        return Throw(TypeError);
      }
      ipc.OffAll(event);
      OffAllEmpties(old(ipc.listeners), event, event);
      r := Normal(());
    }

    /** The `subscribed` reply: store the connection and resolve. */
    method RunOnSubscribed(channel: Channel<Handler>, p: Promise<Channel<Handler>>)
      requires Listener(SubscribedEvent, OnSubscribed(this, channel, p)) in channel.listeners
      modifies this, p
      ensures ipc == channel && p.state == Settle(old(p.state), Fulfilled(channel))
    {
      ipc := channel;
      p.Resolve(channel);
    }

    /** The `unsubscribed` reply: resolve with `true`, then disconnect. */
    method RunOnUnsubscribed(channel: Channel<Handler>, p: Promise<Value>) returns (r: Completion<()>)
      requires Listener(UnsubscribedEvent, OnUnsubscribed(this, p)) in channel.listeners
      modifies p, ipc
      ensures p.state == Settle(old(p.state), Fulfilled(Bool(true)))
      ensures ipc != null ==>
        && r == Normal(()) && ipc.trace == old(ipc.trace) + [Disconnected]
        && ipc.listeners == old(ipc.listeners) && ipc.config == old(ipc.config)
      ensures ipc == null ==> r == Throw(TypeError)
    {
      p.Resolve(Bool(true));
      if ipc == null {
        return Throw(TypeError);
      }
      ipc.Disconnect();
      r := Normal(());
    }
  }

  /** The `connect` handler: announce the configured id to the hub. */
  method RunOnConnect(channel: Channel<Handler>)
    requires Listener(Name(ConnectEvent), OnConnect(channel)) in channel.listeners
    modifies channel
    ensures channel.trace == old(channel.trace) +
      [Emitted(Name(SubscribeEvent), Obj(map["id" := Field(Obj(channel.config), "id")]))]
    ensures channel.listeners == old(channel.listeners) && channel.config == old(channel.config)
  {
    channel.Emit(Name(SubscribeEvent), Obj(map["id" := Field(Obj(channel.config), "id")]));
  }

  method RunCaller(channel: Channel<Handler>, event: string, user: nat, data: Value)
    requires Listener(event, Caller(user)) in channel.listeners
    modifies channel
    ensures channel.trace == old(channel.trace) + [Called(user, data)]
    ensures channel.listeners == old(channel.listeners) && channel.config == old(channel.config)
  {
    channel.Call(user, data);
  }

  /** The `connections` object: one instance per id. */
  class Registry {
    var connections: map<string, IPCConnection>

    ghost predicate Valid()
      reads this
    {
      forall k :: k in connections ==> connections[k].id == k
    }

    constructor ()
      ensures connections == map[] && Valid()
    {
      connections := map[];
    }

    /** `new IPCConnection(id)`: the stored instance for a known id, else a
        fresh one, stored. */
    method New(id: string) returns (c: IPCConnection)
      requires Valid()
      modifies this
      ensures Valid() && c.id == id
      ensures id in old(connections) ==> c == old(connections)[id] && connections == old(connections)
      ensures id !in old(connections) ==>
        fresh(c) && c.ipc == null && connections == old(connections)[id := c]
    {
      if id in connections {
        return connections[id];
      }
      c := new IPCConnection(id);
      connections := connections[id := c];
    }
  }
}
