/**
 * The per-event handlers of the second client generation
 * (src/client/eventHandlers.ts): the built-in `message` handler that
 * acknowledges a received message, the `send` and `listOfSubscribers` emit
 * handlers, and the two dispatch tables that pick them by event name.
 *
 * The handlers work on whatever connection they are given; the closure
 * `emitMessage` leaves on that connection is a `Reply`, which the owner's
 * handler type wraps.
 */
module EventHandlers {
  import opened Wrappers
  import opened Js
  import opened Protocol
  import opened Ipc

  /** The listener `emitMessage` registers for the message's correlation
      event: it settles `promise` and clears the event on `ipc`. */
  datatype Reply<H(==)> = MessageReply(ipc: Channel<H>, event: string, promise: Promise<Value>)

  /** The entries of `onHandlers`. */
  datatype OnHandler = OnMessage

  /** The entries of `emitHandlers`. */
  datatype EmitHandler = EmitMessage | EmitListOfSubscribers

  /** `onHandlers[event]`; `None` is `undefined`, which throws when called. */
  function OnHandlerFor(event: string): (r: Option<OnHandler>)
    ensures r.Some? <==> event == Name(MessageEvent)
  {
    if event == Name(MessageEvent) then Some(OnMessage) else None
  }

  /** `emitHandlers[event]`; `None` is `undefined`, which throws when called. */
  function EmitHandlerFor(event: string): (r: Option<EmitHandler>)
    ensures r == Some(EmitMessage) <==> event == Name(SendEvent)
    ensures r == Some(EmitListOfSubscribers) <==> event == Name(ListOfSubscribersEvent)
  {
    if event == Name(SendEvent) then Some(EmitMessage)
    else if event == Name(ListOfSubscribersEvent) then Some(EmitListOfSubscribers)
    else None
  }

  lemma NameInjective(a: EventType, b: EventType)
    ensures Name(a) == Name(b) <==> a == b
  {
  }

  /** The tables cover exactly the events the protocol lets a client listen
      to and emit. */
  lemma DispatchTablesMatchProtocol(event: string)
    ensures OnHandlerFor(event).Some? <==> exists e :: ClientSubscribable(e) && Name(e) == event
    ensures EmitHandlerFor(event).Some? <==> exists e :: ClientEmitable(e) && Name(e) == event
    ensures EmitHandlerFor(event) == Some(EmitMessage) <==> event == Name(SendEvent)
  {
    if OnHandlerFor(event).Some? {
      assert ClientSubscribable(MessageEvent) && Name(MessageEvent) == event;
    }
    if EmitHandlerFor(event) == Some(EmitMessage) {
      assert ClientEmitable(SendEvent) && Name(SendEvent) == event;
    } else if EmitHandlerFor(event) == Some(EmitListOfSubscribers) {
      assert ClientEmitable(ListOfSubscribersEvent) && Name(ListOfSubscribersEvent) == event;
    }
  }

  /** `{ ...config, messageId }`. */
  function WithMessageIdField(config: map<string, Value>, messageId: int): (r: map<string, Value>)
    ensures r.Keys == config.Keys + {"messageId"}
    ensures r["messageId"] == Num(messageId)
    ensures forall k :: k in config && k != "messageId" ==> r[k] == config[k]
  {
    Assign(config, map["messageId" := Num(messageId)])
  }

  /** The correlation event of the message a connection acknowledges is the
      one its sender listens on: `${data.messageId}_sent` of the payload
      `emitMessage` sent. */
  lemma AckMatchesSenderEvent(config: map<string, Value>, messageId: int)
    ensures SentEvent(Field(Obj(WithMessageIdField(config, messageId)), "messageId")) == SentEvent(Num(messageId))
  {
  }

  /** `onMessage`: acknowledge the message on its correlation event, with no
      payload. Reading `data.messageId` throws on `null` or `undefined` data
      before anything is emitted. */
  method OnMessageAck<H(==)>(ipc: Channel<H>, data: Value) returns (r: Completion<()>)
    modifies ipc
    ensures !Readable(data) ==> r == Throw(TypeError) && unchanged(ipc)
    ensures Readable(data) ==>
      && r == Normal(())
      && ipc.trace == old(ipc.trace) + [Emitted(SentEvent(Field(data, "messageId")), Undefined)]
      && ipc.listeners == old(ipc.listeners) && ipc.config == old(ipc.config)
  {
    if !Readable(data) {
      return Throw(TypeError);
    }
    ipc.Emit(SentEvent(Field(data, "messageId")), Undefined);
    r := Normal(());
  }

  /** `emitMessage`: the message goes out numbered with `messageId` (the
      `randomNumber(0, 1000000)` draw) and a listener for its correlation
      event is left to settle the returned promise. */
  method SendMessage<H(==)>(ipc: Channel<H>, config: map<string, Value>, messageId: int, wrap: Reply<H> -> H)
    returns (p: Promise<Value>)
    requires 0 <= messageId < 1000000
    modifies ipc
    ensures fresh(p) && p.state == Pending
    ensures ipc.trace == old(ipc.trace) + [Emitted(Name(MessageEvent), Obj(WithMessageIdField(config, messageId)))]
    ensures ipc.listeners == old(ipc.listeners) +
      [Listener(SentEvent(Num(messageId)), wrap(MessageReply(ipc, SentEvent(Num(messageId)), p)))]
    ensures ipc.config == old(ipc.config)
  {
    p := new Promise();
    ipc.Emit(Name(MessageEvent), Obj(WithMessageIdField(config, messageId)));
    var event := SentEvent(Num(messageId));
    ipc.On(event, wrap(MessageReply(ipc, event, p)));
  }

  /** The correlation listener runs: a success resolves the promise, anything
      else rejects it, and every listener for the event goes, so no later
      reply reaches this promise. */
  method RunMessageReply<H(==)>(r: Reply<H>, data: Value)
    modifies r.ipc, r.promise
    ensures r.promise.state == Settle(old(r.promise.state), if IsSuccess(data) then Fulfilled(data) else Rejected(data))
    ensures r.ipc.listeners == WithoutEvent(old(r.ipc.listeners), r.event)
    ensures HandlersFor(r.ipc.listeners, r.event) == []
    ensures r.ipc.trace == old(r.ipc.trace) && r.ipc.config == old(r.ipc.config)
  {
    if IsSuccess(data) {
      r.promise.Resolve(data);
    } else {
      r.promise.Reject(data);
    }
    r.ipc.OffAll(r.event);
    OffAllEmpties(old(r.ipc.listeners), r.event, r.event);
  }

  /** `emitListOfSubscribers`: the config goes out unchanged and the returned
      promise is never settled (its executor calls neither `res` nor `rej`). */
  method ListOfSubscribers<H(==)>(ipc: Channel<H>, config: map<string, Value>) returns (p: Promise<Value>)
    modifies ipc
    ensures fresh(p) && p.state == Pending
    ensures ipc.trace == old(ipc.trace) + [Emitted(Name(ListOfSubscribersEvent), Obj(config))]
    ensures ipc.listeners == old(ipc.listeners) && ipc.config == old(ipc.config)
  {
    p := new Promise();
    ipc.Emit(Name(ListOfSubscribersEvent), Obj(config));
  }
}
