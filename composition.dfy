/**
 * The hub and its clients together. The shipped client (src/client.ts) and
 * the hub (src/server.ts) agree on the wire: the payload keys, the
 * correlation event and the reply events. The other two generations do not:
 * the second generation names its payload keys differently, and the legacy
 * client waits for reply events the hub never emits. The scenarios at the
 * end run the hub and shipped clients against each other, passing each
 * emission to the other side by hand.
 */
module Composition {
  import opened Wrappers
  import opened Js
  import opened Protocol
  import opened Hub
  import opened Ipc
  import ShippedClient
  import Connection
  import EventHandlers
  import LegacyClient

  /** A message the shipped client sends reaches the hub as meant: to a
      subscribed target it is forwarded as is, and the hub listens for the
      acknowledgment on the very event the sender waits on; to an absent
      target the sender is told `clientDisconnected` on that event. */
  lemma ShippedSendAgreesWithHub(s: HubState, from: string, to: string, message: Value, messageId: int, timeout: Value)
    requires Str(from) in s.clientsTable
    ensures var payload := ShippedClient.SendPayload(from, to, message, messageId);
      var r := AfterMessage(s, payload, timeout);
      var sender := s.clientsTable[Str(from)].socket;
      && !r.threw
      && (Str(to) in s.clientsTable ==>
            && r.state.log == s.log + [Emission(s.clientsTable[Str(to)].socket, Name(MessageEvent), payload)]
            && r.state.listeners == s.listeners + [AckListener(s.nextSerial, SentEvent(Num(messageId)), Some(sender))])
      && (Str(to) !in s.clientsTable ==>
            r.state.log == s.log + [Emission(sender, SentEvent(Num(messageId)),
              Encode(FailedResult(ClientDisconnected, DisconnectedReason(Str(to)))))])
  {
  }

  /** The receiving shipped client acknowledges a forwarded message on the
      event the hub's listener for it waits on. */
  lemma ShippedAckReachesHubListener(s: HubState, from: string, to: string, message: Value, messageId: int, timeout: Value)
    requires Str(from) in s.clientsTable && Str(to) in s.clientsTable
    ensures var payload := ShippedClient.SendPayload(from, to, message, messageId);
      var r := AfterMessage(s, payload, timeout).state;
      SentEvent(Field(r.log[|r.log| - 1].payload, "message_id")) == r.listeners[|r.listeners| - 1].event
  {
  }

  /** "undefined" is not the numeral of any number. */
  lemma UndefinedIsNoNumeral(n: int)
    ensures IntToDecimal(n) != "undefined"
  {
    var d := IntToDecimal(n);
    if n < 0 {
      assert d[0] == '-';
    } else {
      assert IsDigit(d[0]);
    }
  }

  /** The second generation's message payload carries `clientId`,
      `targetId` and `messageId`, which the hub does not read: it sees
      `undefined` for the sender, the target and the message id. Unless
      `undefined` itself was subscribed as an id, the hub throws on the
      message and forwards nothing, and even its correlation event is not
      the one the sender listens on. */
  lemma SecondGenerationPayloadMissesHub(s: HubState, config: map<string, Value>, id: string, messageId: int, timeout: Value)
    requires "from_id" !in config && "to_id" !in config && "message_id" !in config
    requires Undefined !in s.clientsTable
    ensures var payload := Obj(EventHandlers.WithMessageIdField(Connection.EmitConfig(config, id), messageId));
      && Field(payload, "from_id") == Undefined && Field(payload, "to_id") == Undefined
      && AfterMessage(s, payload, timeout) == Step(s, true)
      && SentEvent(Field(payload, "message_id")) != SentEvent(Num(messageId))
  {
    var payload := Obj(EventHandlers.WithMessageIdField(Connection.EmitConfig(config, id), messageId));
    UndefinedIsNoNumeral(messageId);
    var mine, theirs := SentEvent(Num(messageId)), SentEvent(Field(payload, "message_id"));
    assert theirs == "undefined" + "_sent";
    assert mine[..|mine| - 5] == IntToDecimal(messageId);
    assert theirs[..|theirs| - 5] == "undefined";
  }

  /** Whatever happens to a hub started fresh, it never emits `subscribed` or
      `unsubscribed`, the replies the legacy client waits for: its subscribe
      and unsubscribe promises never settle through the hub. */
  lemma LegacyRepliesNeverCome(timeout: Value, es: seq<Event>)
    ensures forall k :: 0 <= k < |Run(Initial, timeout, es).log| ==>
      Run(Initial, timeout, es).log[k].event != LegacyClient.SubscribedEvent &&
      Run(Initial, timeout, es).log[k].event != LegacyClient.UnsubscribedEvent
  {
    InitialValid();
    RunKeepsWellTypedLog(Initial, timeout, es);
    var log := Run(Initial, timeout, es).log;
    forall k | 0 <= k < |log|
      ensures log[k].event != LegacyClient.SubscribedEvent && log[k].event != LegacyClient.UnsubscribedEvent
    {
      assert WellTypedReply(log[k]);
    }
  }

  /** The shipped client's subscribe handshake against the hub, with the
      client's connection reaching the hub as `socket`: the connection
      announces the id on `connect`, the hub answers, and the answer reaches
      the client's `subscribe` listener. */
  method Handshake(hub: Hub, c: ShippedClient.ConnectionInstance, socket: Socket, now: int)
    returns (p: Ipc.Promise<Ipc.Channel<ShippedClient.Handler>>, ipc: Ipc.Channel<ShippedClient.Handler>)
    requires Valid(hub.State())
    modifies hub, c
    ensures fresh(p) && fresh(ipc) && Valid(hub.State())
    ensures ipc.listeners == [
      Ipc.Listener(Name(ConnectEvent), ShippedClient.OnConnect(ipc)),
      Ipc.Listener(Name(SubscribeEvent), ShippedClient.OnSubscribe(c, ipc, p)),
      Ipc.Listener("error", ShippedClient.OnError(p))]
    ensures hub.listeners == old(hub.listeners) && hub.timers == old(hub.timers)
    ensures Str(c.id) !in old(hub.clientsTable) ==>
      && hub.clientsTable == old(hub.clientsTable)[Str(c.id) := Client(socket, now)]
      && c.ipc == ipc && c.isSubscribed && p.state == Ipc.Fulfilled(ipc)
    ensures Str(c.id) in old(hub.clientsTable) ==>
      && hub.clientsTable == old(hub.clientsTable)
      && c.ipc == old(c.ipc) && c.isSubscribed == old(c.isSubscribed)
      && p.state == Ipc.Rejected(Encode(FailedResult(IdAlreadySubscribed, AlreadySubscribedReason(Str(c.id)))))
  {
    p, ipc := c.Subscribe(map[], map[]);
    ShippedClient.SubscribeConfig(map[], c.id, map[]);
    ShippedClient.RunOnConnect(ipc);
    var request := ipc.trace[0];
    assert request.payload == Obj(map["id" := Str(c.id)]);
    var reply := HubAnswersSubscribe(hub, c.id, socket, now);
    c.RunOnSubscribe(ipc, p, reply);
  }

  /** The hub's half of the handshake: it records `id` unless the id is
      taken, and the reply it sends says which happened. */
  method HubAnswersSubscribe(hub: Hub, id: string, socket: Socket, now: int) returns (reply: Value)
    requires Valid(hub.State())
    modifies hub
    ensures Valid(hub.State())
    ensures hub.listeners == old(hub.listeners) && hub.timers == old(hub.timers)
    ensures Str(id) !in old(hub.clientsTable) ==>
      hub.clientsTable == old(hub.clientsTable)[Str(id) := Client(socket, now)] && IsSuccess(reply)
    ensures Str(id) in old(hub.clientsTable) ==>
      && hub.clientsTable == old(hub.clientsTable)
      && reply == Encode(FailedResult(IdAlreadySubscribed, AlreadySubscribedReason(Str(id))))
      && !IsSuccess(reply)
  {
    var _ := hub.Subscribe(Obj(map["id" := Str(id)]), socket, now);
    reply := hub.log[|hub.log| - 1].payload;
    IsSuccessAgreesWithTag(SuccessResult(None), reply);
    IsSuccessAgreesWithTag(FailedResult(IdAlreadySubscribed, AlreadySubscribedReason(Str(id))), reply);
  }

  /** `new ConnectionInstance("a")` and `new ConnectionInstance("b")` in a
      fresh process: two distinct instances, neither subscribed. */
  method TwoInstances() returns (a: ShippedClient.ConnectionInstance, b: ShippedClient.ConnectionInstance)
    ensures fresh(a) && fresh(b) && a != b
    ensures a.id == "a" && b.id == "b"
  {
    var registry := new ShippedClient.Registry();
    a := registry.New("a");
    assert "b"[0] != "a"[0];
    b := registry.New("b");
  }

  /** "a" and "b" subscribe to a fresh hub through sockets 0 and 1. */
  method TwoSubscribed(timeout: Value)
    returns (hub: Hub, a: ShippedClient.ConnectionInstance, b: ShippedClient.ConnectionInstance,
             ca: Channel<ShippedClient.Handler>, cb: Channel<ShippedClient.Handler>)
    ensures fresh(hub) && fresh(a) && fresh(b) && fresh(ca) && fresh(cb)
    ensures a != b && ca != cb
    ensures Valid(hub.State()) && hub.config == ServeConfig(map["messageTimeout" := timeout])
    ensures hub.clientsTable == map[Str("a") := Client(Socket(0), 0), Str("b") := Client(Socket(1), 1)]
    ensures hub.listeners == [] && hub.timers == []
    ensures a.id == "a" && a.ipc == ca && a.isSubscribed
    ensures b.id == "b" && b.ipc == cb && b.isSubscribed
  {
    hub := new Hub(map["messageTimeout" := timeout]);
    a, b := TwoInstances();
    var pa, pb;
    pa, ca := Handshake(hub, a, Socket(0), 0);
    pb, cb := Handshake(hub, b, Socket(1), 1);
  }

  /** "a" sends "hi" to "b" as message 42; "b" has a message handler, which
      acknowledges, and the hub answers "a" with success. */
  method SendAndAck(hub: Hub, a: ShippedClient.ConnectionInstance, b: ShippedClient.ConnectionInstance,
                    ca: Channel<ShippedClient.Handler>, cb: Channel<ShippedClient.Handler>)
    returns (sent: Promise<Value>)
    requires a != b && ca != cb && Valid(hub.State())
    requires hub.clientsTable == map[Str("a") := Client(Socket(0), 0), Str("b") := Client(Socket(1), 1)]
    requires hub.listeners == [] && hub.timers == []
    requires a.id == "a" && a.ipc == ca && b.id == "b" && b.ipc == cb
    modifies hub, ca, cb
    ensures fresh(sent) && sent.state == Pending && Valid(hub.State())
    ensures Listener(SentEvent(Num(42)), ShippedClient.OnSendReply(a, SentEvent(Num(42)), sent)) in ca.listeners
    ensures |hub.log| > 0 && hub.log[|hub.log| - 1] == Emission(Socket(0), SentEvent(Num(42)), Encode(SuccessResult(None)))
    ensures |hub.timers| == 1 && hub.timers[0].listener.sender == Some(Socket(0))
    ensures hub.timers[0].listener.event == SentEvent(Num(42))
  {
    var _ := b.OnMessage(7);
    var forwarded;
    sent, forwarded := SendToPresent(hub, a, ca);
    AckOnReceipt(hub, b, cb, forwarded);
  }

  /** "a" sends "hi" as message 42 to "b", which the hub knows: the hub
      forwards it to "b"'s socket and waits for the acknowledgment. */
  method SendToPresent(hub: Hub, a: ShippedClient.ConnectionInstance, ca: Channel<ShippedClient.Handler>)
    returns (sent: Promise<Value>, forwarded: Value)
    requires Valid(hub.State())
    requires hub.clientsTable == map[Str("a") := Client(Socket(0), 0), Str("b") := Client(Socket(1), 1)]
    requires hub.listeners == [] && hub.timers == []
    requires a.id == "a" && a.ipc == ca
    modifies hub, ca
    ensures fresh(sent) && sent.state == Pending && Valid(hub.State())
    ensures Listener(SentEvent(Num(42)), ShippedClient.OnSendReply(a, SentEvent(Num(42)), sent)) in ca.listeners
    ensures |hub.log| > 0 && hub.log[|hub.log| - 1] == Emission(Socket(1), Name(MessageEvent), forwarded)
    ensures Field(forwarded, "message_id") == Num(42)
    ensures |hub.listeners| == 1 && hub.listeners[0].sender == Some(Socket(0))
    ensures hub.listeners[0].event == SentEvent(Num(42))
  {
    sent := a.Send("b", Str("hi"), 42);
    var request := ca.trace[|ca.trace| - 1];
    var _ := hub.Message(request.payload);
    forwarded := request.payload;
  }

  /** The single pending timer fires for a message of "a": the hub answers
      "a" with `waitMessageTimeout`. */
  method TimeOutForA(hub: Hub)
    requires Valid(hub.State()) && |hub.timers| == 1
    requires hub.timers[0].listener.sender == Some(Socket(0))
    requires hub.timers[0].listener.event == SentEvent(Num(42))
    modifies hub
    ensures Valid(hub.State())
    ensures |hub.log| > 0 && hub.log[|hub.log| - 1] ==
      Emission(Socket(0), SentEvent(Num(42)), Encode(FailedResult(WaitMessageTimeout, TimeoutReason)))
  {
    var _ := hub.TimerFire(0);
  }

  /** "b"'s message handler receives `data` and acknowledges it; the hub's
      single listener for the message answers its sender with success.
      Message data that is `null` or `undefined` makes the handler throw
      before it acknowledges, and the hub hears nothing. */
  method AckOnReceipt(hub: Hub, b: ShippedClient.ConnectionInstance, cb: Channel<ShippedClient.Handler>, data: Value)
    requires Valid(hub.State()) && b.ipc == cb
    requires Listener(Name(MessageEvent), ShippedClient.AckThenCall(b, 7)) in cb.listeners
    requires |hub.listeners| == 1 && hub.listeners[0].sender.Some?
    requires hub.listeners[0].event == SentEvent(Field(data, "message_id"))
    modifies hub, cb
    ensures Valid(hub.State())
    ensures Readable(data) ==>
      hub.log == old(hub.log) +
        [Emission(old(hub.listeners[0].sender.value), old(hub.listeners[0].event), Encode(SuccessResult(None)))]
    ensures !Readable(data) ==> hub.log == old(hub.log) && unchanged(cb)
    ensures hub.listeners == old(hub.listeners) && hub.timers == old(hub.timers)
    ensures cb.listeners == old(cb.listeners)
  {
    var r := b.RunAckThenCall(cb, 7, data);
    if r.Throw? {
      return;
    }
    var ack := cb.trace[|cb.trace| - 2];
    AckDispatchOne(hub.listeners[0]);
    assert hub.listeners == [hub.listeners[0]];
    var _ := hub.Ack(ack.event);
  }

  /** Scenario: "a" and "b" subscribe, "a" sends "hi" to "b", "b"'s message
      handler acknowledges it, and "a"'s send promise resolves with success.
      The hub's timer is still pending; when it fires, the failure it sends
      finds no listener left on "a"'s connection. */
  method SendIsAcknowledged() returns (outcome: Settlement<Value>, listenersLeft: nat)
    ensures outcome == Fulfilled(Encode(SuccessResult(None)))
    ensures listenersLeft == 0
  {
    var hub, a, b, ca, cb := TwoSubscribed(Num(100));
    var sent := SendAndAck(hub, a, b, ca, cb);
    var reply := hub.log[|hub.log| - 1];
    IsSuccessAgreesWithTag(SuccessResult(None), reply.payload);
    var _ := a.RunOnSendReply(ca, reply.event, sent, reply.payload);
    outcome := sent.state;
    TimeOutForA(hub);
    var late := hub.log[|hub.log| - 1];
    listenersLeft := |HandlersFor(ca.listeners, late.event)|;
  }

  /** Scenario: "a" subscribes, then subscribes again on a second connection:
      the first succeeds, the second is refused with `idAlreadySubscribed`,
      and the instance keeps its first connection. */
  method SubscribeTwice()
    returns (first: Settlement<Channel<ShippedClient.Handler>>, second: Settlement<Channel<ShippedClient.Handler>>,
             keepsFirst: bool)
    ensures first.Fulfilled? && keepsFirst
    ensures second.Rejected? && Decode(second.reason) == Some(FailedResult(IdAlreadySubscribed, AlreadySubscribedReason(Str("a"))))
  {
    var hub := new Hub(map["messageTimeout" := Num(100)]);
    var registry := new ShippedClient.Registry();
    var a := registry.New("a");
    var p1, c1 := Handshake(hub, a, Socket(0), 0);
    var p2, c2 := Handshake(hub, a, Socket(1), 1);
    DecodeEncode(FailedResult(IdAlreadySubscribed, AlreadySubscribedReason(Str("a"))));
    first, second := p1.state, p2.state;
    keepsFirst := a.ipc == c1;
  }

  /** "a" subscribes to a fresh hub through socket 0. */
  method OneSubscribed(timeout: Value)
    returns (hub: Hub, a: ShippedClient.ConnectionInstance, ca: Channel<ShippedClient.Handler>)
    ensures fresh(hub) && fresh(a) && fresh(ca)
    ensures Valid(hub.State()) && hub.config == ServeConfig(map["messageTimeout" := timeout])
    ensures hub.clientsTable == map[Str("a") := Client(Socket(0), 0)]
    ensures hub.listeners == [] && hub.timers == []
    ensures a.id == "a" && a.ipc == ca && a.isSubscribed
  {
    hub := new Hub(map["messageTimeout" := timeout]);
    var registry := new ShippedClient.Registry();
    a := registry.New("a");
    var pa;
    pa, ca := Handshake(hub, a, Socket(0), 0);
  }

  /** "a" sends "hi" as message 42 to "b", which the hub does not know. */
  method SendToAbsent(hub: Hub, a: ShippedClient.ConnectionInstance, ca: Channel<ShippedClient.Handler>)
    returns (sent: Promise<Value>)
    requires Valid(hub.State())
    requires hub.clientsTable == map[Str("a") := Client(Socket(0), 0)]
    requires hub.listeners == [] && hub.timers == []
    requires a.id == "a" && a.ipc == ca
    modifies hub, ca
    ensures fresh(sent) && sent.state == Pending
    ensures Listener(SentEvent(Num(42)), ShippedClient.OnSendReply(a, SentEvent(Num(42)), sent)) in ca.listeners
    ensures |hub.log| > 0 && hub.log[|hub.log| - 1] ==
      Emission(Socket(0), SentEvent(Num(42)), Encode(FailedResult(ClientDisconnected, DisconnectedReason(Str("b")))))
    ensures hub.timers == []
  {
    sent := a.Send("b", Str("hi"), 42);
    var request := ca.trace[|ca.trace| - 1];
    var _ := hub.Message(request.payload);
  }

  /** Scenario: "a" sends to "b", which never subscribed: the send promise is
      rejected with `clientDisconnected` at once and the hub starts no timer. */
  method SendToAbsentTarget() returns (outcome: Settlement<Value>, timers: nat)
    ensures outcome == Rejected(Encode(FailedResult(ClientDisconnected, DisconnectedReason(Str("b")))))
    ensures timers == 0
  {
    var hub, a, ca := OneSubscribed(Num(100));
    var sent := SendToAbsent(hub, a, ca);
    var reply := hub.log[|hub.log| - 1];
    IsSuccessAgreesWithTag(FailedResult(ClientDisconnected, DisconnectedReason(Str("b"))), reply.payload);
    var _ := a.RunOnSendReply(ca, reply.event, sent, reply.payload);
    outcome, timers := sent.state, |hub.timers|;
  }

  /** Scenario: as `SendIsAcknowledged`, but "b" has no message handler and
      never acknowledges: the timer fires and the send promise is rejected
      with `waitMessageTimeout`. */
  method SendTimesOut() returns (outcome: Settlement<Value>)
    ensures outcome == Rejected(Encode(FailedResult(WaitMessageTimeout, TimeoutReason)))
  {
    var hub, a, b, ca, cb := TwoSubscribed(Num(100));
    var sent, _ := SendToPresent(hub, a, ca);
    TimeOutForA(hub);
    var reply := hub.log[|hub.log| - 1];
    IsSuccessAgreesWithTag(FailedResult(WaitMessageTimeout, TimeoutReason), reply.payload);
    var _ := a.RunOnSendReply(ca, reply.event, sent, reply.payload);
    outcome := sent.state;
  }

  /** "a" unsubscribes: the hub forgets it and answers, and the answer
      resolves the promise and disconnects "a"'s connection. */
  method UnsubscribeRound(hub: Hub, a: ShippedClient.ConnectionInstance, ca: Channel<ShippedClient.Handler>)
    returns (done: Promise<Value>)
    requires Valid(hub.State())
    requires hub.clientsTable == map[Str("a") := Client(Socket(0), 0)]
    requires a.id == "a" && a.ipc == ca
    modifies hub, ca
    ensures fresh(done) && done.state == Fulfilled(Bool(true))
    ensures Valid(hub.State()) && hub.clientsTable == map[]
    ensures |ca.trace| > 0 && ca.trace[|ca.trace| - 1] == Disconnected
  {
    var r := a.Unsubscribe();
    done := r.value;
    var request := ca.trace[|ca.trace| - 1];
    var _ := hub.Unsubscribe(request.payload);
    var reply := hub.log[|hub.log| - 1];
    assert reply.target == Socket(0) && reply.event == Name(UnsubscribeEvent);
    var _ := a.RunOnUnsubscribe(ca, done, reply.payload);
  }

  /** Scenario: "a" subscribes and unsubscribes: the promise resolves `true`,
      the connection is disconnected and the hub no longer has "a"; the
      socket's close is then harmless, and "a" can subscribe again at once. */
  method UnsubscribeAndReturn()
    returns (done: Settlement<Value>, disconnected: bool, goneFromHub: bool,
             again: Settlement<Channel<ShippedClient.Handler>>)
    ensures done == Fulfilled(Bool(true)) && disconnected && goneFromHub
    ensures again.Fulfilled?
  {
    var hub, a, ca := OneSubscribed(Num(100));
    var p := UnsubscribeRound(hub, a, ca);
    done := p.state;
    disconnected := ca.trace[|ca.trace| - 1] == Disconnected;
    hub.Close(Socket(0));
    goneFromHub := Str("a") !in hub.clientsTable;
    var p2, c2 := Handshake(hub, a, Socket(1), 1);
    again := p2.state;
  }
  /** The error node-ipc reports when connecting fails with `code`. */
  function ConnectError(code: string): Value
  {
    Obj(map["syscall" := Str("connect"), "code" := Str(code)])
  }

  /** Of the connect errors, only `ENOENT` (no socket file: no hub) means the
      hub is unreachable. */
  lemma ConnectErrorUnreachable(code: string)
    ensures ShippedClient.HubUnreachable(ConnectError(code)) <==> code == "ENOENT"
  {
    assert "syscall"[0] != "code"[0];
    assert Field(ConnectError(code), "code") == Str(code);
  }

  /** Scenario: no hub is listening. Errors other than an unreachable hub
      leave the subscription pending; the `ENOENT` connect error rejects it
      with `hubIsNotActive`. */
  method HubNotRunning() returns (afterOther: Settlement<Channel<ShippedClient.Handler>>, outcome: Settlement<Channel<ShippedClient.Handler>>)
    ensures afterOther == Pending
    ensures outcome.Rejected? && Decode(outcome.reason) == Some(FailedResult(HubIsNotActive, ShippedClient.HubUnreachableReason))
  {
    var registry := new ShippedClient.Registry();
    var a := registry.New("a");
    var p, ca := a.Subscribe(map[], map[]);
    ConnectErrorUnreachable("ECONNREFUSED");
    ShippedClient.RunOnError(ca, p, ConnectError("ECONNREFUSED"));
    afterOther := p.state;
    ConnectErrorUnreachable("ENOENT");
    ShippedClient.RunOnError(ca, p, ConnectError("ENOENT"));
    DecodeEncode(ShippedClient.UnreachableResult());
    outcome := p.state;
  }
}
