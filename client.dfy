/**
 * The shipped client (src/client.ts): a registry of one `ConnectionInstance`
 * per id, and per instance the subscribe handshake with the hub, `on`/`off`
 * of the caller's handlers, `onMessage` (acknowledge, then hand over),
 * `send` with its correlation listener, and `unsubscribe`.
 *
 * Each closure the instance leaves on a connection is a `Handler`; the
 * transport runs one by calling the `Run…` method of that closure while it is
 * registered for the event that arrived.
 */
module ShippedClient {
  import opened Wrappers
  import opened Js
  import opened Protocol
  import opened Ipc

  /** The closures this client registers on a connection. */
  datatype Handler =
    | Caller(user: nat)                                                 // `on`: the caller's function itself
    | AckThenCall(owner: ConnectionInstance, user: nat)                 // `onMessage`'s wrapper
    | OnSendReply(owner: ConnectionInstance, event: string, result: Promise<Value>)
    | OnConnect(ipc: Channel<Handler>)
    | OnSubscribe(owner: ConnectionInstance, ipc: Channel<Handler>, promise: Promise<Channel<Handler>>)
    | OnError(promise: Promise<Channel<Handler>>)
    | OnUnsubscribe(owner: ConnectionInstance, done: Promise<Value>)

  const HubUnreachableReason := "hub isn't reached"

  /** `{ id, retry: 500, maxRetries: 0, silent: true }`. */
  function BaseConfig(id: string): (c: map<string, Value>)
    ensures c.Keys == {"id", "retry", "maxRetries", "silent"} && c["id"] == Str(id)
    ensures c["retry"] == Num(500) && c["maxRetries"] == Num(0) && c["silent"] == Bool(true)
  {
    map["id" := Str(id), "retry" := Num(500), "maxRetries" := Num(0), "silent" := Bool(true)]
  }

  /** `Object.assign(ipc.config, baseIpcConfig, customIpcConfig)`: the
      caller's keys win, the base keys fill in the rest, the library defaults
      whatever neither names. */
  lemma SubscribeConfig(defaults: map<string, Value>, id: string, custom: map<string, Value>)
    ensures var c := Merged(defaults, [BaseConfig(id), custom]);
      && c.Keys == defaults.Keys + BaseConfig(id).Keys + custom.Keys
      && (forall k :: k in custom ==> c[k] == custom[k])
      && ("id" !in custom ==> c["id"] == Str(id))
      && ("retry" !in custom ==> c["retry"] == Num(500))
      && ("maxRetries" !in custom ==> c["maxRetries"] == Num(0))
      && ("silent" !in custom ==> c["silent"] == Bool(true))
      && (forall k :: k in defaults && k !in BaseConfig(id) && k !in custom ==> c[k] == defaults[k])
  {
    MergedTwo(defaults, BaseConfig(id), custom);
  }

  /** The object `send` emits: `{ from_id, to_id, message, message_id }`. */
  function SendPayload(from: string, to: string, message: Value, messageId: int): (r: Value)
    ensures r.Obj? && r.fields.Keys == {"from_id", "to_id", "message", "message_id"}
    ensures Field(r, "from_id") == Str(from) && Field(r, "to_id") == Str(to)
    ensures Field(r, "message") == message && Field(r, "message_id") == Num(messageId)
  {
    Obj(map["from_id" := Str(from), "to_id" := Str(to), "message" := message, "message_id" := Num(messageId)])
  }

  /** The receiver acknowledges on the event the sender listens on: the
      `message_id` it reads back from the payload names the same correlation
      event. */
  lemma AckMatchesSendEvent(from: string, to: string, message: Value, messageId: int)
    ensures SentEvent(Field(SendPayload(from, to, message, messageId), "message_id")) == SentEvent(Num(messageId))
  {
  }

  predicate HubUnreachable(error: Value)
    ensures HubUnreachable(error) ==> error.Obj? && "syscall" in error.fields && "code" in error.fields
  {
    Field(error, "syscall") == Str(Name(ConnectEvent)) && Field(error, "code") == Str("ENOENT")
  }

  /** The rejection `subscribe` gives when the hub cannot be reached. */
  function UnreachableResult(): (r: EventResult)
    ensures r.FailedResult? && r.errorCode == HubIsNotActive
    ensures Within(r, {})
  {
    FailedResult(HubIsNotActive, HubUnreachableReason)
  }

  class ConnectionInstance {
    const id: string
    var isSubscribed: bool
    var ipc: Channel?<Handler>

    constructor (id: string)
      ensures this.id == id && !isSubscribed && ipc == null
    {
      this.id := id;
      isSubscribed := false;
      ipc := null;
    }

    /** `on(event, handler)`: the caller's handler itself is registered and
        handed back. */
    method On(event: string, user: nat) returns (r: Completion<Handler>)
      modifies ipc
      ensures ipc == null ==>
        r == Throw(ErrorObject("You should subscribe to hub before adding event handlers"))
      ensures ipc != null ==>
        && r == Normal(Caller(user))
        && ipc.listeners == old(ipc.listeners) + [Listener(event, Caller(user))]
        && ipc.trace == old(ipc.trace) && ipc.config == old(ipc.config)
    {
      if ipc == null {
        return Throw(ErrorObject("You should subscribe to hub before adding event handlers"));
      }
      ipc.On(event, Caller(user));
      r := Normal(Caller(user));
    }

    method Off(event: string, handler: Handler) returns (r: Completion<()>)
      modifies ipc
      ensures ipc == null ==>
        r == Throw(ErrorObject("You should subscribe to hub before removing event handlers"))
      ensures ipc != null ==>
        && r == Normal(())
        && ipc.listeners == Without(old(ipc.listeners), event, handler)
        && ipc.trace == old(ipc.trace) && ipc.config == old(ipc.config)
    {
      if ipc == null {
        return Throw(ErrorObject("You should subscribe to hub before removing event handlers"));
      }
      ipc.Off(event, handler);
      r := Normal(());
    }

    /** `onMessage(handler)`: registers a wrapper for `message` that
        acknowledges first, and hands back the caller's handler. */
    method OnMessage(user: nat) returns (r: Completion<Handler>)
      modifies ipc
      ensures ipc == null ==>
        r == Throw(ErrorObject("You should subscribe to hub before adding event handlers"))
      ensures ipc != null ==>
        && r == Normal(Caller(user))
        && ipc.listeners == old(ipc.listeners) + [Listener(Name(MessageEvent), AckThenCall(this, user))]
        && ipc.trace == old(ipc.trace) && ipc.config == old(ipc.config)
    {
      if ipc == null {
        return Throw(ErrorObject("You should subscribe to hub before adding event handlers"));
      }
      ipc.On(Name(MessageEvent), AckThenCall(this, user));
      r := Normal(Caller(user));
    }

    /** `send(to, message)`: the missing-connection check sits inside the
        promise executor, so it gives a rejected promise rather than a throw.
        Otherwise the message goes out numbered with `messageId` (the
        `randomNumber(0, 1000000)` draw) and a listener for its correlation
        event waits to settle the promise. */
    method Send(to: string, message: Value, messageId: int) returns (p: Promise<Value>)
      requires 0 <= messageId < 1000000
      modifies ipc
      ensures fresh(p)
      ensures ipc == null ==>
        p.state == Rejected(ErrorObject("You should subscribe to hub before sending messages"))
      ensures ipc != null ==>
        && p.state == Pending
        && ipc.trace == old(ipc.trace) + [Emitted(Name(MessageEvent), SendPayload(id, to, message, messageId))]
        && ipc.listeners == old(ipc.listeners) +
             [Listener(SentEvent(Num(messageId)), OnSendReply(this, SentEvent(Num(messageId)), p))]
        && ipc.config == old(ipc.config)
    {
      if ipc == null {
        p := new Promise.Thrown(ErrorObject("You should subscribe to hub before sending messages"));
        return;
      }
      p := new Promise();
      ipc.Emit(Name(MessageEvent), SendPayload(id, to, message, messageId));
      var event := SentEvent(Num(messageId));
      ipc.On(event, OnSendReply(this, event, p));
    }

    /** `subscribe(customIpcConfig)`: a new connection (`ipc`), configured,
        with the three handshake handlers registered on it. Nothing on the
        instance changes until the hub answers. */
    method Subscribe(custom: map<string, Value>, defaults: map<string, Value>)
      returns (p: Promise<Channel<Handler>>, ipc: Channel<Handler>)
      ensures fresh(p) && fresh(ipc) && p.state == Pending
      ensures ipc.config == Merged(defaults, [BaseConfig(id), custom])
      ensures ipc.trace == []
      ensures ipc.listeners == [
        Listener(Name(ConnectEvent), OnConnect(ipc)),
        Listener(Name(SubscribeEvent), OnSubscribe(this, ipc, p)),
        Listener("error", OnError(p))]
    {
      p := new Promise();
      ipc := new Channel(defaults);
      ipc.Configure([BaseConfig(id), custom]);
      ipc.On(Name(ConnectEvent), OnConnect(ipc));
      ipc.On(Name(SubscribeEvent), OnSubscribe(this, ipc, p));
      ipc.On("error", OnError(p));
    }

    method Unsubscribe() returns (r: Completion<Promise<Value>>)
      modifies ipc
      ensures ipc == null ==>
        r == Throw(ErrorObject("You should subscribe to hub before unsubscribing"))
      ensures ipc != null ==>
        && r.Normal? && fresh(r.value) && r.value.state == Pending
        && ipc.listeners == old(ipc.listeners) + [Listener(Name(UnsubscribeEvent), OnUnsubscribe(this, r.value))]
        && ipc.trace == old(ipc.trace) + [Emitted(Name(UnsubscribeEvent), Obj(map["id" := Str(id)]))]
        && ipc.config == old(ipc.config)
    {
      if ipc == null {
        return Throw(ErrorObject("You should subscribe to hub before unsubscribing"));
      }
      var p := new Promise();
      ipc.On(Name(UnsubscribeEvent), OnUnsubscribe(this, p));
      ipc.Emit(Name(UnsubscribeEvent), Obj(map["id" := Str(id)]));
      r := Normal(p);
    }

    /** `onMessage`'s wrapper runs: acknowledge on `this.ipc`, then call the
        caller's handler. */
    method RunAckThenCall(channel: Channel<Handler>, user: nat, data: Value) returns (r: Completion<()>)
      requires Listener(Name(MessageEvent), AckThenCall(this, user)) in channel.listeners
      modifies ipc, channel
      ensures ipc == null ==> r == Throw(TypeError) && unchanged(channel)
      ensures ipc != null && !Readable(data) ==> r == Throw(TypeError) && unchanged(ipc, channel)
      ensures ipc == channel && Readable(data) ==>
        && r == Normal(())
        && channel.trace == old(channel.trace) +
             [Emitted(SentEvent(Field(data, "message_id")), Undefined), Called(user, data)]
        && channel.listeners == old(channel.listeners) && channel.config == old(channel.config)
      ensures ipc != null && ipc != channel && Readable(data) ==>
        && r == Normal(())
        && ipc.trace == old(ipc.trace) + [Emitted(SentEvent(Field(data, "message_id")), Undefined)]
        && channel.trace == old(channel.trace) + [Called(user, data)]
        && ipc.listeners == old(ipc.listeners) && ipc.config == old(ipc.config)
        && channel.listeners == old(channel.listeners) && channel.config == old(channel.config)
    {
      if ipc == null {
        return Throw(TypeError);
      }
      if !Readable(data) {
        return Throw(TypeError);
      }
      ipc.Emit(SentEvent(Field(data, "message_id")), Undefined);
      channel.Call(user, data);
      r := Normal(());
    }

    /** The correlation listener of a `send` runs: a success resolves, anything
        else rejects, and every listener for the event goes from `this.ipc`. */
    method RunOnSendReply(channel: Channel<Handler>, event: string, p: Promise<Value>, data: Value)
      returns (r: Completion<()>)
      requires Listener(event, OnSendReply(this, event, p)) in channel.listeners
      modifies p, ipc
      ensures p.state == Settle(old(p.state), if IsSuccess(data) then Fulfilled(data) else Rejected(data))
      ensures ipc == null ==> r == Throw(TypeError)
      ensures ipc != null ==>
        && r == Normal(())
        && ipc.listeners == WithoutEvent(old(ipc.listeners), event)
        && HandlersFor(ipc.listeners, event) == []
        && ipc.trace == old(ipc.trace) && ipc.config == old(ipc.config)
    {
      if IsSuccess(data) {
        p.Resolve(data);
      } else {
        p.Reject(data);
      }
      if ipc == null {
        return Throw(TypeError);
      }
      ipc.OffAll(event);
      OffAllEmpties(old(ipc.listeners), event, event);
      r := Normal(());
    }

    /** The hub's `subscribe` reply: a success stores the connection, marks
        the instance subscribed and resolves; anything else rejects and
        leaves the instance as it was. */
    method RunOnSubscribe(channel: Channel<Handler>, p: Promise<Channel<Handler>>, response: Value)
      requires Listener(Name(SubscribeEvent), OnSubscribe(this, channel, p)) in channel.listeners
      modifies this, p
      ensures IsSuccess(response) ==>
        ipc == channel && isSubscribed && p.state == Settle(old(p.state), Fulfilled(channel))
      ensures !IsSuccess(response) ==>
        ipc == old(ipc) && isSubscribed == old(isSubscribed) && p.state == Settle(old(p.state), Rejected(response))
    {
      if IsSuccess(response) {
        ipc := channel;
        isSubscribed := true;
        p.Resolve(channel);
      } else {
        p.Reject(response);
      }
    }

    /** The hub's `unsubscribe` reply: resolve with `true`, then disconnect
        `this.ipc`. Neither `isSubscribed` nor the stored connection is
        cleared. */
    method RunOnUnsubscribe(channel: Channel<Handler>, p: Promise<Value>, data: Value) returns (r: Completion<()>)
      requires Listener(Name(UnsubscribeEvent), OnUnsubscribe(this, p)) in channel.listeners
      modifies p, ipc
      ensures p.state == Settle(old(p.state), Fulfilled(Bool(true)))
      ensures ipc != null ==>
        && r == Normal(()) && ipc.trace == old(ipc.trace) + [Disconnected]
        && ipc.listeners == old(ipc.listeners) && ipc.config == old(ipc.config)
      ensures ipc == null ==> r == Throw(TypeError)
    {
      p.Resolve(Bool(true));
      if ipc == null {
        return Throw(TypeError);
      }
      ipc.Disconnect();
      r := Normal(());
    }
  }

  /** The `connect` handler: announce the configured id to the hub. */
  method RunOnConnect(channel: Channel<Handler>)
    requires Listener(Name(ConnectEvent), OnConnect(channel)) in channel.listeners
    modifies channel
    ensures channel.trace == old(channel.trace) +
      [Emitted(Name(SubscribeEvent), Obj(map["id" := Field(Obj(channel.config), "id")]))]
    ensures channel.listeners == old(channel.listeners) && channel.config == old(channel.config)
  {
    channel.Emit(Name(SubscribeEvent), Obj(map["id" := Field(Obj(channel.config), "id")]));
  }

  /** The transport's `error` handler: only an unreachable hub rejects the
      subscription; every other error is ignored. */
  method RunOnError(channel: Channel<Handler>, p: Promise<Channel<Handler>>, error: Value)
    requires Listener("error", OnError(p)) in channel.listeners
    modifies p
    ensures p.state == if HubUnreachable(error)
      then Settle(old(p.state), Rejected(Encode(UnreachableResult())))
      else old(p.state)
  {
    if HubUnreachable(error) {
      p.Reject(Encode(UnreachableResult()));
    }
  }

  /** A handler the caller registered with `on` runs. */
  method RunCaller(channel: Channel<Handler>, event: string, user: nat, data: Value)
    requires Listener(event, Caller(user)) in channel.listeners
    modifies channel
    ensures channel.trace == old(channel.trace) + [Called(user, data)]
    ensures channel.listeners == old(channel.listeners) && channel.config == old(channel.config)
  {
    channel.Call(user, data);
  }

  /** `off(event, on(event, h))` removes exactly what `on` added: the
      caller's handler no longer runs for `event`, the rest do, in order. */
  lemma OffUndoesOn(ls: seq<Listener<Handler>>, event: string, user: nat)
    requires Listener(event, Caller(user)) !in ls
    ensures HandlersFor(Without(ls + [Listener(event, Caller(user))], event, Caller(user)), event) == HandlersFor(ls, event)
  {
    OffDrops(ls + [Listener(event, Caller(user))], event, Caller(user), event);
    OnAppends(ls, Listener(event, Caller(user)), event);
    DropConcat(HandlersFor(ls, event), [Caller(user)], Caller(user));
    assert Drop([Caller(user)], Caller(user)) == [] by {
      assert [Caller(user)][1..] == [];
    }
    DropAbsent(HandlersFor(ls, event), Caller(user));
  }

  lemma {:induction false} DropAbsent(hs: seq<Handler>, h: Handler)
    requires h !in hs
    ensures Drop(hs, h) == hs
  {
    if hs != [] {
      assert hs[0] in hs;
      DropAbsent(hs[1..], h);
    }
  }

  /** The module-level `connections` map: one instance per id. */
  class Registry {
    var connections: map<string, ConnectionInstance>

    ghost predicate Valid()
      reads this
    {
      forall k :: k in connections ==> connections[k].id == k
    }

    constructor ()
      ensures connections == map[] && Valid()
    {
      connections := map[];
    }

    /** `new ConnectionInstance(id)`: the registered instance for a known id,
        unchanged; otherwise a fresh unsubscribed instance, registered. */
    method New(id: string) returns (c: ConnectionInstance)
      requires Valid()
      modifies this
      ensures Valid() && c.id == id
      ensures id in old(connections) ==> c == old(connections)[id] && connections == old(connections)
      ensures id !in old(connections) ==>
        fresh(c) && !c.isSubscribed && c.ipc == null && connections == old(connections)[id := c]
    {
      if id in connections {
        return connections[id];
      }
      c := new ConnectionInstance(id);
      connections := connections[id := c];
    }
  }
}
