/**
 * The message hub (src/server.ts): the table of subscribed clients, the
 * `message`, `subscribe` and `unsubscribe` handlers, the per-socket `close`
 * handler, and the acknowledgment listener / timeout pair set up for every
 * forwarded message.
 *
 * The transport is a log of emissions `(socket, event, payload)`. Timers are
 * pending entries that fire when the environment chooses (`AfterTimeout`),
 * not by a clock. Each handler is a function from the hub's state to the
 * next one; the class `Hub` holds that state in fields and is proved against
 * these functions.
 */
module Hub {
  import opened Wrappers
  import opened Js
  import opened Protocol

  /** A client's socket as the transport hands it to the hub. */
  datatype Socket = Socket(handle: nat)

  /** `Client`: a subscriber's socket and the time it subscribed. */
  datatype Client = Client(socket: Socket, connectedAt: int)

  /** `ipc.server.emit(target, event, payload)`. */
  datatype Emission = Emission(target: Socket, event: string, payload: Value)

  /** The `waitCallback` closure registered for one forwarded message.
      `serial` is the closure's identity; `sender` is the socket of the
      captured `senderClient`, `None` when that lookup found nothing. */
  datatype AckListener = AckListener(serial: nat, event: string, sender: Option<Socket>)

  /** A pending `setTimeout` for one forwarded message, with the listener it
      captured and the delay it was given. */
  datatype Timer = Timer(listener: AckListener, delay: Value)

  /** A `close` handler installed on `socket` when `id` subscribed through it. */
  datatype CloseHandler = CloseHandler(socket: Socket, id: Value)

  datatype HubState = HubState(
    clientsTable: map<Value, Client>,
    closeHandlers: seq<CloseHandler>,
    listeners: seq<AckListener>,
    timers: seq<Timer>,
    log: seq<Emission>,
    nextSerial: nat)

  /** What a handler leaves behind: the next state, and whether it threw a
      TypeError part-way (everything it did before the throw is kept). */
  datatype Step = Step(state: HubState, threw: bool)

  const Initial := HubState(map[], [], [], [], [], 0)

  const DefaultConfig: map<string, Value> := map["messageTimeout" := Num(2000)]

  /** `{ ...defaultConfig, ...userConfig }`. */
  function ServeConfig(userConfig: map<string, Value>): (c: map<string, Value>)
    ensures c.Keys == userConfig.Keys + {"messageTimeout"}
    ensures c["messageTimeout"] ==
      if "messageTimeout" in userConfig then userConfig["messageTimeout"] else Num(2000)
    ensures forall k :: k in userConfig ==> c[k] == userConfig[k]
  {
    Assign(DefaultConfig, userConfig)
  }

  /** `start()` hands `serve` to the transport, which calls it with no
      argument: the hub always runs with the default timeout. */
  lemma StartUsesDefaultTimeout()
    ensures ServeConfig(map[]) == map["messageTimeout" := Num(2000)]
  {
  }

  /** `clientsTable.get(key)`. */
  function Lookup(table: map<Value, Client>, key: Value): (r: Option<Client>)
    ensures r.Some? <==> key in table
    ensures r.Some? ==> r.value == table[key]
  {
    if key in table then Some(table[key]) else None
  }

  function AlreadySubscribedReason(id: Value): string
  {
    "provided id (" + ToJsString(id) + ") is already subscribed"
  }

  function DisconnectedReason(to: Value): string
  {
    ToJsString(to) + " is disconnected"
  }

  const TimeoutReason := "The client is not responded about receiving message in time"

  /** Only the log differs between `s` and `r`. */
  predicate OnlyLogChanged(s: HubState, r: HubState)
  {
    r == s.(log := r.log)
  }

  /** The `subscribe` handler. A known id is refused on the requesting socket
      and nothing else changes; a fresh id gets exactly one record, one close
      handler on its socket, and a success reply. */
  function AfterSubscribe(s: HubState, data: Value, socket: Socket, now: int): (r: Step)
    ensures r.threw <==> !Readable(data)
    ensures r.threw ==> r.state == s
    ensures !r.threw && Field(data, "id") in s.clientsTable ==>
      && OnlyLogChanged(s, r.state)
      && r.state.log == s.log + [Emission(socket, Name(SubscribeEvent),
           Encode(FailedResult(IdAlreadySubscribed, AlreadySubscribedReason(Field(data, "id")))))]
    ensures !r.threw && Field(data, "id") !in s.clientsTable ==>
      && r.state.clientsTable.Keys == s.clientsTable.Keys + {Field(data, "id")}
      && r.state.clientsTable[Field(data, "id")] == Client(socket, now)
      && (forall k :: k in s.clientsTable ==> r.state.clientsTable[k] == s.clientsTable[k])
      && r.state.closeHandlers == s.closeHandlers + [CloseHandler(socket, Field(data, "id"))]
      && r.state.listeners == s.listeners && r.state.timers == s.timers
      && r.state.nextSerial == s.nextSerial
      && r.state.log == s.log + [Emission(socket, Name(SubscribeEvent), Encode(SuccessResult(None)))]
  {
    if !Readable(data) then Step(s, true)
    else
      var id := Field(data, "id");
      if id in s.clientsTable then
        Step(s.(log := s.log + [Emission(socket, Name(SubscribeEvent),
                  Encode(FailedResult(IdAlreadySubscribed, AlreadySubscribedReason(id))))]), false)
      else
        Step(s.(clientsTable := s.clientsTable[id := Client(socket, now)],
                closeHandlers := s.closeHandlers + [CloseHandler(socket, id)],
                log := s.log + [Emission(socket, Name(SubscribeEvent), Encode(SuccessResult(None)))]), false)
  }

  /** The ids whose close handlers sit on `socket`. */
  function ClosedIds(handlers: seq<CloseHandler>, socket: Socket): (ids: set<Value>)
    ensures forall h :: h in handlers && h.socket == socket ==> h.id in ids
    ensures forall id :: id in ids ==> CloseHandler(socket, id) in handlers
  {
    set h | h in handlers && h.socket == socket :: h.id
  }

  /** The socket closed: every close handler on it deletes its id if the
      table still has it. The handler tests the id, not the socket, so it
      also deletes a record that a later subscribe put there through another
      socket. */
  function AfterClose(s: HubState, socket: Socket): (r: HubState)
    ensures r.clientsTable.Keys == s.clientsTable.Keys - ClosedIds(s.closeHandlers, socket)
    ensures forall k :: k in r.clientsTable ==> r.clientsTable[k] == s.clientsTable[k]
    ensures r == s.(clientsTable := r.clientsTable)
  {
    s.(clientsTable := s.clientsTable - ClosedIds(s.closeHandlers, socket))
  }

  /** The `unsubscribe` handler: the id's record goes and its socket is told
      so with the id as payload. An unknown id throws (`get(id)!` is
      `undefined`) and changes nothing. */
  function AfterUnsubscribe(s: HubState, data: Value): (r: Step)
    ensures r.threw <==> !Readable(data) || Field(data, "id") !in s.clientsTable
    ensures r.threw ==> r.state == s
    ensures !r.threw ==>
      && r.state.clientsTable == s.clientsTable - {Field(data, "id")}
      && r.state == s.(clientsTable := r.state.clientsTable, log := r.state.log)
      && r.state.log == s.log + [Emission(s.clientsTable[Field(data, "id")].socket, Name(UnsubscribeEvent),
           Encode(SuccessResult(Some(Field(data, "id")))))]
  {
    if !Readable(data) || Field(data, "id") !in s.clientsTable then Step(s, true)
    else
      var id := Field(data, "id");
      var socket := s.clientsTable[id].socket;
      Step(s.(clientsTable := s.clientsTable - {id},
              log := s.log + [Emission(socket, Name(UnsubscribeEvent), Encode(SuccessResult(Some(id))))]), false)
  }

  /** The `message` handler. To an absent target: one `clientDisconnected`
      reply to the sender on the correlation event, nothing forwarded, no
      listener, no timer. To a present target: the data forwarded unchanged,
      and exactly one listener and one timer for the correlation event. A
      sender missing from the table makes the reply throw. */
  function AfterMessage(s: HubState, data: Value, timeout: Value): (r: Step)
    ensures !Readable(data) ==> r == Step(s, true)
    ensures Readable(data) && Field(data, "to_id") !in s.clientsTable ==>
      if Field(data, "from_id") in s.clientsTable then
        && !r.threw && OnlyLogChanged(s, r.state)
        && r.state.log == s.log + [Emission(s.clientsTable[Field(data, "from_id")].socket,
             SentEvent(Field(data, "message_id")),
             Encode(FailedResult(ClientDisconnected, DisconnectedReason(Field(data, "to_id")))))]
      else r == Step(s, true)
    ensures Readable(data) && Field(data, "to_id") in s.clientsTable ==>
      var listener := AckListener(s.nextSerial, SentEvent(Field(data, "message_id")),
        if Field(data, "from_id") in s.clientsTable
        then Some(s.clientsTable[Field(data, "from_id")].socket) else None);
      && !r.threw
      && r.state.clientsTable == s.clientsTable && r.state.closeHandlers == s.closeHandlers
      && r.state.log == s.log + [Emission(s.clientsTable[Field(data, "to_id")].socket, Name(MessageEvent), data)]
      && r.state.listeners == s.listeners + [listener]
      && r.state.timers == s.timers + [Timer(listener, timeout)]
      && r.state.nextSerial == s.nextSerial + 1
  {
    if !Readable(data) then Step(s, true)
    else
      var event := SentEvent(Field(data, "message_id"));
      var sender := Lookup(s.clientsTable, Field(data, "from_id"));
      var destination := Lookup(s.clientsTable, Field(data, "to_id"));
      if destination.None? then
        if sender.None? then Step(s, true)
        else
          Step(s.(log := s.log + [Emission(sender.value.socket, event,
                    Encode(FailedResult(ClientDisconnected, DisconnectedReason(Field(data, "to_id")))))]), false)
      else
        var listener := AckListener(s.nextSerial, event, if sender.Some? then Some(sender.value.socket) else None);
        Step(s.(log := s.log + [Emission(destination.value.socket, Name(MessageEvent), data)],
                listeners := s.listeners + [listener],
                timers := s.timers + [Timer(listener, timeout)],
                nextSerial := s.nextSerial + 1), false)
  }

  /** The listeners registered for `event`, in registration order. */
  function Matching(ls: seq<AckListener>, event: string): (r: seq<AckListener>)
    ensures forall l :: l in r <==> l in ls && l.event == event
  {
    if ls == [] then []
    else (if ls[0].event == event then [ls[0]] else []) + Matching(ls[1..], event)
  }

  /** The transport runs the listeners for `event` in registration order. Each
      emits a success to its sender; one whose sender is `undefined` throws,
      and the listeners after it do not run. */
  function AckDispatch(ls: seq<AckListener>, event: string): (r: (seq<Emission>, bool))
    ensures forall k :: 0 <= k < |r.0| ==> r.0[k].event == event && r.0[k].payload == Encode(SuccessResult(None))
    ensures r.1 <==> exists i :: 0 <= i < |ls| && ls[i].event == event && ls[i].sender.None?
  {
    if ls == [] then ([], false)
    else if ls[0].event != event then AckDispatch(ls[1..], event)
    else match ls[0].sender
      case None => ([], true)
      case Some(socket) =>
        var rest := AckDispatch(ls[1..], event);
        ([Emission(socket, event, Encode(SuccessResult(None)))] + rest.0, rest.1)
  }

  /** An acknowledgment arrived: the listeners stay registered (they are not
      one-shot), so every acknowledgment before the timeout is answered. */
  function AfterAck(s: HubState, event: string): (r: Step)
    ensures r.state == s.(log := s.log + AckDispatch(s.listeners, event).0)
    ensures r.threw == AckDispatch(s.listeners, event).1
  {
    var out := AckDispatch(s.listeners, event);
    Step(s.(log := s.log + out.0), out.1)
  }

  /** `ipc.server.off(event, waitCallback)`: drops every occurrence of that closure. */
  function RemoveListener(ls: seq<AckListener>, l: AckListener): (r: seq<AckListener>)
    ensures forall x :: x in r <==> x in ls && x != l
  {
    if ls == [] then []
    else (if ls[0] == l then [] else [ls[0]]) + RemoveListener(ls[1..], l)
  }

  /** The `i`-th pending timer fires. `isSent` is the constant `false`, so the
      failure branch always runs: the listener is removed and the sender is
      told `waitMessageTimeout`, even when the target acknowledged. */
  function AfterTimeout(s: HubState, i: nat): (r: Step)
    requires i < |s.timers|
    ensures r.state.timers == s.timers[..i] + s.timers[i + 1..]
    ensures r.state.listeners == RemoveListener(s.listeners, s.timers[i].listener)
    ensures r.state.clientsTable == s.clientsTable && r.state.closeHandlers == s.closeHandlers
    ensures r.state.nextSerial == s.nextSerial
    ensures r.threw <==> s.timers[i].listener.sender.None?
    ensures r.state.log == s.log + if r.threw then [] else
      [Emission(s.timers[i].listener.sender.value, s.timers[i].listener.event,
                Encode(FailedResult(WaitMessageTimeout, TimeoutReason)))]
  {
    var t := s.timers[i];
    var s' := s.(timers := s.timers[..i] + s.timers[i + 1..],
                 listeners := RemoveListener(s.listeners, t.listener));
    match t.listener.sender
    case None => Step(s', true)
    case Some(socket) =>
      Step(s'.(log := s'.log + [Emission(socket, t.listener.event,
                 Encode(FailedResult(WaitMessageTimeout, TimeoutReason)))]), false)
  }

  /** One thing that can happen to the hub. Events on names other than
      `message`, `subscribe` and `unsubscribe` reach only the acknowledgment
      listeners (correlation names never collide with those three:
      `Protocol.SentEventShape`). */
  datatype Event =
    | SubscribeRequest(data: Value, socket: Socket, now: int)
    | SocketClosed(socket: Socket)
    | UnsubscribeRequest(data: Value)
    | MessageRequest(data: Value)
    | AckReceived(event: string)
    | TimerFired(index: nat)

  function Apply(s: HubState, timeout: Value, e: Event): (r: HubState)
    ensures |s.log| <= |r.log| && r.log[..|s.log|] == s.log
    ensures s.nextSerial <= r.nextSerial
  {
    match e
    case SubscribeRequest(data, socket, now) => AfterSubscribe(s, data, socket, now).state
    case SocketClosed(socket) => AfterClose(s, socket)
    case UnsubscribeRequest(data) => AfterUnsubscribe(s, data).state
    case MessageRequest(data) => AfterMessage(s, data, timeout).state
    case AckReceived(event) => AfterAck(s, event).state
    case TimerFired(i) => if i < |s.timers| then AfterTimeout(s, i).state else s
  }

  function Run(s: HubState, timeout: Value, es: seq<Event>): (r: HubState)
    ensures |s.log| <= |r.log| && r.log[..|s.log|] == s.log
    ensures s.nextSerial <= r.nextSerial
    decreases |es|
  {
    if es == [] then s else Run(Apply(s, timeout, es[0]), timeout, es[1..])
  }

  /** The hub's bookkeeping invariant: pending listeners and pending timers
      correspond one to one, in registration order, and every listener has
      its own serial, below the next one to be handed out. */
  ghost predicate Valid(s: HubState)
  {
    && |s.listeners| == |s.timers|
    && (forall i :: 0 <= i < |s.timers| ==> s.listeners[i] == s.timers[i].listener)
    && (forall i, j :: 0 <= i < j < |s.listeners| ==> s.listeners[i].serial != s.listeners[j].serial)
    && (forall i :: 0 <= i < |s.listeners| ==> s.listeners[i].serial < s.nextSerial)
    && (forall i :: 0 <= i < |s.listeners| ==> IsSentEvent(s.listeners[i].event))
  }

  lemma RemoveAbsent(ls: seq<AckListener>, l: AckListener)
    requires l !in ls
    ensures RemoveListener(ls, l) == ls
  {
  }

  lemma {:induction false} RemoveAt(ls: seq<AckListener>, i: nat)
    requires i < |ls|
    requires forall j :: 0 <= j < |ls| && j != i ==> ls[j] != ls[i]
    ensures RemoveListener(ls, ls[i]) == ls[..i] + ls[i + 1..]
  {
    if i == 0 {
      RemoveAbsent(ls[1..], ls[0]);
    } else {
      RemoveAt(ls[1..], i - 1);
      assert ls[1..][..i - 1] + ls[1..][i..] == ls[1..i] + ls[i + 1..];
      assert ls[..i] == [ls[0]] + ls[1..i];
    }
  }

  lemma TimeoutKeepsValid(s: HubState, i: nat)
    requires Valid(s) && i < |s.timers|
    ensures Valid(AfterTimeout(s, i).state)
  {
    RemoveAt(s.listeners, i);
    var r := AfterTimeout(s, i).state;
    assert r.listeners == s.listeners[..i] + s.listeners[i + 1..];
    assert |r.listeners| == |r.timers| == |s.timers| - 1;
    forall j | 0 <= j < |r.timers|
      ensures r.listeners[j] == s.listeners[Skip(i, j)] && r.timers[j] == s.timers[Skip(i, j)]
    {
      IndexAfterRemoval(s.listeners, i, j);
      IndexAfterRemoval(s.timers, i, j);
    }
  }

  lemma IndexAfterRemoval<T>(xs: seq<T>, i: nat, j: nat)
    requires i < |xs| && j < |xs| - 1
    ensures (xs[..i] + xs[i + 1..])[j] == xs[Skip(i, j)]
  {
  }

  /** The position in the old sequence of the `j`-th element left after
      removing the `i`-th. */
  function Skip(i: nat, j: nat): (k: nat)
    ensures k == j || k == j + 1
    ensures k != i && (k == j <==> j < i)
  {
    if j < i then j else j + 1
  }

  lemma MessageKeepsValid(s: HubState, data: Value, timeout: Value)
    requires Valid(s)
    ensures Valid(AfterMessage(s, data, timeout).state)
  {
    SentEventShape(Field(data, "message_id"), SubscribeEvent, 0, 0);
  }

  /** Every handler keeps the invariant. */
  lemma ApplyKeepsValid(s: HubState, timeout: Value, e: Event)
    requires Valid(s)
    ensures Valid(Apply(s, timeout, e))
  {
    match e
    case SubscribeRequest(data, socket, now) =>
    case SocketClosed(socket) =>
    case UnsubscribeRequest(data) =>
    case MessageRequest(data) => MessageKeepsValid(s, data, timeout);
    case AckReceived(event) =>
    case TimerFired(i) => if i < |s.timers| { TimeoutKeepsValid(s, i); }
  }

  lemma InitialValid()
    ensures Valid(Initial) && WellTypedLog(Initial.log)
  {
  }

  /** The invariant holds after any sequence of handler runs. */
  lemma {:induction false} RunKeepsValid(s: HubState, timeout: Value, es: seq<Event>)
    requires Valid(s)
    ensures Valid(Run(s, timeout, es))
    decreases |es|
  {
    if es != [] {
      ApplyKeepsValid(s, timeout, es[0]);
      RunKeepsValid(Apply(s, timeout, es[0]), timeout, es[1..]);
    }
  }

  /** A listener that is gone and whose serial has been handed out never
      comes back: serials are only ever fresh. */
  lemma {:induction false} GoneListenerStaysGone(s: HubState, timeout: Value, es: seq<Event>, l: AckListener)
    requires l !in s.listeners && l.serial < s.nextSerial
    ensures l !in Run(s, timeout, es).listeners
    decreases |es|
  {
    if es != [] {
      var s' := Apply(s, timeout, es[0]);
      assert l !in s'.listeners && l.serial < s'.nextSerial;
      GoneListenerStaysGone(s', timeout, es[1..], l);
    }
  }

  /** Once a timer has fired its listener is never registered again, so no
      later acknowledgment is answered on its behalf. */
  lemma TimedOutListenerNeverReturns(s: HubState, timeout: Value, i: nat, es: seq<Event>)
    requires Valid(s) && i < |s.timers|
    ensures s.timers[i].listener !in Run(AfterTimeout(s, i).state, timeout, es).listeners
  {
    var l := s.timers[i].listener;
    assert l == s.listeners[i];
    GoneListenerStaysGone(AfterTimeout(s, i).state, timeout, es, l);
  }

  /** With no listener for `event` (its timers have all fired), an
      acknowledgment on it is answered by nothing. */
  lemma {:induction false} AckWithoutListenerIsSilent(ls: seq<AckListener>, event: string)
    requires forall l :: l in ls ==> l.event != event
    ensures AckDispatch(ls, event) == ([], false)
  {
    if ls != [] {
      AckWithoutListenerIsSilent(ls[1..], event);
    }
  }

  /** The success each of `ms` sends its sender, in order. */
  function Answers(ms: seq<AckListener>, event: string): (r: seq<Emission>)
    requires forall l :: l in ms ==> l.sender.Some?
    ensures |r| == |ms|
    ensures forall k :: 0 <= k < |ms| ==> r[k] == Emission(ms[k].sender.value, event, Encode(SuccessResult(None)))
  {
    if ms == [] then []
    else [Emission(ms[0].sender.value, event, Encode(SuccessResult(None)))] + Answers(ms[1..], event)
  }

  /** When every listener for `event` captured a live sender, an
      acknowledgment sends one success to each of them, in registration
      order, and nothing throws. */
  lemma {:induction false} AckAnswersEveryListener(ls: seq<AckListener>, event: string)
    requires forall l :: l in ls && l.event == event ==> l.sender.Some?
    ensures AckDispatch(ls, event) == (Answers(Matching(ls, event), event), false)
  {
    if ls != [] {
      var rest := ls[1..];
      assert forall l :: l in rest ==> l in ls;
      AckAnswersEveryListener(rest, event);
      if ls[0].event == event {
        var ms := Matching(ls, event);
        assert ms == [ls[0]] + Matching(rest, event);
        assert ms[0] == ls[0] && ms[1..] == Matching(rest, event);
      } else {
        assert Matching(ls, event) == Matching(rest, event);
      }
    }
  }

  /** A reply the hub sends means what the protocol types say: `subscribe`
      replies can fail only with `idAlreadySubscribed`, `unsubscribe` replies
      succeed, and correlation replies fail only with `clientDisconnected` or
      `waitMessageTimeout`. Forwarded messages are the sender's data. Every
      emission is on `subscribe`, `unsubscribe`, `message` or a correlation
      event. */
  ghost predicate WellTypedReply(e: Emission)
  {
    && (e.event in {Name(SubscribeEvent), Name(UnsubscribeEvent), Name(MessageEvent)} || IsSentEvent(e.event))
    && (e.event == Name(SubscribeEvent) ==>
          Decode(e.payload).Some? && Within(Decode(e.payload).value, {IdAlreadySubscribed}))
    && (e.event == Name(UnsubscribeEvent) ==>
          Decode(e.payload).Some? && Decode(e.payload).value.SuccessResult?)
    && (IsSentEvent(e.event) ==>
          Decode(e.payload).Some? && Within(Decode(e.payload).value, {ClientDisconnected, WaitMessageTimeout}))
  }

  ghost predicate WellTypedLog(log: seq<Emission>)
  {
    forall k :: 0 <= k < |log| ==> WellTypedReply(log[k])
  }

  lemma AckRepliesWellTyped(ls: seq<AckListener>, event: string)
    requires forall i :: 0 <= i < |ls| ==> IsSentEvent(ls[i].event)
    ensures WellTypedLog(AckDispatch(ls, event).0)
  {
    DecodeEncode(SuccessResult(None));
    var out := AckDispatch(ls, event).0;
    if out != [] {
      AckDispatchBounded(ls, event);
      var m := Matching(ls, event);
      assert m[0] in m;
      var i :| 0 <= i < |ls| && ls[i] == m[0];
      assert IsSentEvent(event);
    }
  }

  lemma AppendWellTyped(log: seq<Emission>, more: seq<Emission>)
    requires WellTypedLog(log) && WellTypedLog(more)
    ensures WellTypedLog(log + more)
  {
    forall k | 0 <= k < |log + more| ensures WellTypedReply((log + more)[k]) {
      if k >= |log| {
        assert (log + more)[k] == more[k - |log|];
      }
    }
  }

  lemma SubscribeRepliesWellTyped(s: HubState, data: Value, socket: Socket, now: int)
    ensures WellTypedLog(AfterSubscribe(s, data, socket, now).state.log[|s.log|..])
  {
    var r := AfterSubscribe(s, data, socket, now).state;
    if Readable(data) {
      var result := if Field(data, "id") in s.clientsTable
        then FailedResult(IdAlreadySubscribed, AlreadySubscribedReason(Field(data, "id")))
        else SuccessResult(None);
      var reply := Emission(socket, Name(SubscribeEvent), Encode(result));
      assert r.log[|s.log|..] == [reply];
      DecodeEncode(result);
      NoNameIsSentEvent(SubscribeEvent);
      assert WellTypedReply(reply);
    } else {
      NothingNewWellTyped(s.log);
    }
  }

  lemma UnsubscribeRepliesWellTyped(s: HubState, data: Value)
    ensures WellTypedLog(AfterUnsubscribe(s, data).state.log[|s.log|..])
  {
    if Readable(data) && Field(data, "id") in s.clientsTable {
      DecodeEncode(SuccessResult(Some(Field(data, "id"))));
      NoNameIsSentEvent(UnsubscribeEvent);
    }
  }

  lemma MessageRepliesWellTyped(s: HubState, data: Value, timeout: Value)
    ensures WellTypedLog(AfterMessage(s, data, timeout).state.log[|s.log|..])
  {
    var r := AfterMessage(s, data, timeout).state;
    if !Readable(data) || (Field(data, "to_id") !in s.clientsTable && Field(data, "from_id") !in s.clientsTable) {
      NothingNewWellTyped(s.log);
    } else if Field(data, "to_id") !in s.clientsTable {
      var reply := Emission(s.clientsTable[Field(data, "from_id")].socket, SentEvent(Field(data, "message_id")),
        Encode(FailedResult(ClientDisconnected, DisconnectedReason(Field(data, "to_id")))));
      CorrelationReplyWellTyped(reply.target, reply.event, ClientDisconnected, DisconnectedReason(Field(data, "to_id")));
      OneWellTyped(s.log, r.log, reply);
    } else {
      var forward := Emission(s.clientsTable[Field(data, "to_id")].socket, Name(MessageEvent), data);
      NoNameIsSentEvent(MessageEvent);
      OneWellTyped(s.log, r.log, forward);
    }
  }

  /** A failure sent on a correlation event with `clientDisconnected` or
      `waitMessageTimeout` reads as the correlation reply type says. */
  lemma CorrelationReplyWellTyped(target: Socket, event: string, code: ErrorCode, reason: string)
    requires IsSentEvent(event)
    requires code == ClientDisconnected || code == WaitMessageTimeout
    ensures WellTypedReply(Emission(target, event, Encode(FailedResult(code, reason))))
  {
    DecodeEncode(FailedResult(code, reason));
    NoNameIsSentEvent(SubscribeEvent);
    NoNameIsSentEvent(UnsubscribeEvent);
    NoNameIsSentEvent(MessageEvent);
  }

  /** A log that grew by exactly `e`, a well-typed reply, grew by a
      well-typed part. */
  lemma OneWellTyped(before: seq<Emission>, after: seq<Emission>, e: Emission)
    requires after == before + [e] && WellTypedReply(e)
    ensures WellTypedLog(after[|before|..])
  {
    assert after[|before|..] == [e];
  }

  lemma TimeoutRepliesWellTyped(s: HubState, i: nat)
    requires Valid(s) && i < |s.timers|
    ensures WellTypedLog(AfterTimeout(s, i).state.log[|s.log|..])
  {
    var l := s.timers[i].listener;
    if l.sender.Some? {
      assert l == s.listeners[i];
      CorrelationReplyWellTyped(l.sender.value, l.event, WaitMessageTimeout, TimeoutReason);
      OneWellTyped(s.log, AfterTimeout(s, i).state.log,
        Emission(l.sender.value, l.event, Encode(FailedResult(WaitMessageTimeout, TimeoutReason))));
    } else {
      NothingNewWellTyped(s.log);
    }
  }

  lemma ApplyKeepsWellTypedLog(s: HubState, timeout: Value, e: Event)
    requires Valid(s) && WellTypedLog(s.log)
    ensures WellTypedLog(Apply(s, timeout, e).log)
  {
    var r := Apply(s, timeout, e);
    assert r.log == s.log + r.log[|s.log|..];
    NewRepliesWellTyped(s, timeout, e);
    AppendWellTyped(s.log, r.log[|s.log|..]);
  }

  /** What one handler adds to the log reads as its event's response type says. */
  lemma NewRepliesWellTyped(s: HubState, timeout: Value, e: Event)
    requires Valid(s)
    ensures WellTypedLog(Apply(s, timeout, e).log[|s.log|..])
  {
    match e {
      case SubscribeRequest(data, socket, now) => SubscribeRepliesWellTyped(s, data, socket, now);
      case SocketClosed(socket) => NothingNewWellTyped(s.log);
      case UnsubscribeRequest(data) => UnsubscribeRepliesWellTyped(s, data);
      case MessageRequest(data) => MessageRepliesWellTyped(s, data, timeout);
      case AckReceived(event) => AckAddsWellTyped(s, event);
      case TimerFired(i) =>
        if i < |s.timers| {
          TimeoutRepliesWellTyped(s, i);
        } else {
          NothingNewWellTyped(s.log);
        }
    }
  }

  lemma NothingNewWellTyped(log: seq<Emission>)
    ensures WellTypedLog(log[|log|..])
  {
    assert log[|log|..] == [];
  }

  lemma AckAddsWellTyped(s: HubState, event: string)
    requires Valid(s)
    ensures WellTypedLog(AfterAck(s, event).state.log[|s.log|..])
  {
    AckRepliesWellTyped(s.listeners, event);
    assert AfterAck(s, event).state.log[|s.log|..] == AckDispatch(s.listeners, event).0;
  }

  /** Every reply in the log of a hub that started empty reads as its event's
      response type says. */
  lemma {:induction false} RunKeepsWellTypedLog(s: HubState, timeout: Value, es: seq<Event>)
    requires Valid(s) && WellTypedLog(s.log)
    ensures WellTypedLog(Run(s, timeout, es).log)
    decreases |es|
  {
    if es != [] {
      ApplyKeepsValid(s, timeout, es[0]);
      ApplyKeepsWellTypedLog(s, timeout, es[0]);
      RunKeepsWellTypedLog(Apply(s, timeout, es[0]), timeout, es[1..]);
    }
  }

  /** Subscribing the same id twice: the first is accepted, the second refused
      with `idAlreadySubscribed` and the first record kept. */
  lemma SecondSubscribeRefused(s: HubState, data: Value, first: Socket, second: Socket, t1: int, t2: int)
    requires Readable(data) && Field(data, "id") !in s.clientsTable
    ensures var s1 := AfterSubscribe(s, data, first, t1).state;
            var s2 := AfterSubscribe(s1, data, second, t2).state;
            && s2.clientsTable == s1.clientsTable
            && s2.clientsTable[Field(data, "id")] == Client(first, t1)
            && Decode(s2.log[|s2.log| - 1].payload) ==
                 Some(FailedResult(IdAlreadySubscribed, AlreadySubscribedReason(Field(data, "id"))))
            && s2.log[|s2.log| - 1].target == second
  {
    DecodeEncode(FailedResult(IdAlreadySubscribed, AlreadySubscribedReason(Field(data, "id"))));
  }

  /** Subscribing and then unsubscribing an id leaves the table, the
      listeners and the timers as they were; the close handler installed on
      the socket stays behind until the socket closes. */
  lemma SubscribeUnsubscribeRoundTrip(s: HubState, data: Value, socket: Socket, now: int)
    requires Readable(data) && Field(data, "id") !in s.clientsTable
    ensures var s1 := AfterSubscribe(s, data, socket, now).state;
            var r := AfterUnsubscribe(s1, data);
            && !r.threw
            && r.state.clientsTable == s.clientsTable
            && r.state.listeners == s.listeners && r.state.timers == s.timers
            && r.state.closeHandlers == s.closeHandlers + [CloseHandler(socket, Field(data, "id"))]
            && r.state.log[|r.state.log| - 1] ==
                 Emission(socket, Name(UnsubscribeEvent), Encode(SuccessResult(Some(Field(data, "id")))))
  {
    var id := Field(data, "id");
    var s1 := AfterSubscribe(s, data, socket, now).state;
    assert s1.clientsTable - {id} == s.clientsTable;
  }

  /** A socket that closes without unsubscribing loses its record, and the id
      can subscribe again at once. */
  lemma CloseFreesTheId(s: HubState, data: Value, socket: Socket, other: Socket, t1: int, t2: int)
    requires Readable(data) && Field(data, "id") !in s.clientsTable
    ensures var s1 := AfterClose(AfterSubscribe(s, data, socket, t1).state, socket);
            var s2 := AfterSubscribe(s1, data, other, t2).state;
            && Field(data, "id") !in s1.clientsTable
            && s2.clientsTable[Field(data, "id")] == Client(other, t2)
            && s2.log[|s2.log| - 1] == Emission(other, Name(SubscribeEvent), Encode(SuccessResult(None)))
  {
    var s0 := AfterSubscribe(s, data, socket, t1).state;
    assert CloseHandler(socket, Field(data, "id")) in s0.closeHandlers;
  }

  /** The close handler deletes by id: after an explicit unsubscribe and a
      new subscription of the same id through another socket, the old
      socket's close removes the new record. */
  lemma StaleCloseRemovesResubscription(s: HubState, data: Value, first: Socket, second: Socket, t1: int, t2: int)
    requires Readable(data) && Field(data, "id") !in s.clientsTable && first != second
    ensures var s1 := AfterSubscribe(s, data, first, t1).state;
            var s2 := AfterUnsubscribe(s1, data).state;
            var s3 := AfterSubscribe(s2, data, second, t2).state;
            var s4 := AfterClose(s3, first);
            && s3.clientsTable[Field(data, "id")] == Client(second, t2)
            && Field(data, "id") !in s4.clientsTable
  {
    var s1 := AfterSubscribe(s, data, first, t1).state;
    var s2 := AfterUnsubscribe(s1, data).state;
    var s3 := AfterSubscribe(s2, data, second, t2).state;
    assert CloseHandler(first, Field(data, "id")) in s3.closeHandlers;
  }

  lemma {:induction false} AckDispatchSkips(ls: seq<AckListener>, rest: seq<AckListener>, event: string)
    requires forall l :: l in ls ==> l.event != event
    ensures AckDispatch(ls + rest, event) == AckDispatch(rest, event)
  {
    if ls != [] {
      var all := ls + rest;
      assert all[0] == ls[0] && ls[0] in ls;
      assert all[1..] == ls[1..] + rest;
      AckDispatchSkips(ls[1..], rest, event);
      assert AckDispatch(all, event) == AckDispatch(all[1..], event);
    } else {
      assert ls + rest == rest;
    }
  }

  /** `isSent` is never set, so a message that its target acknowledged in
      time still times out: the sender is told success and then
      `waitMessageTimeout` on the same correlation event. */
  lemma AcknowledgedMessageStillTimesOut(s: HubState, data: Value, timeout: Value)
    requires Readable(data)
    requires Field(data, "from_id") in s.clientsTable && Field(data, "to_id") in s.clientsTable
    requires forall l :: l in s.listeners ==> l.event != SentEvent(Field(data, "message_id"))
    ensures var event := SentEvent(Field(data, "message_id"));
            var sender := s.clientsTable[Field(data, "from_id")].socket;
            var s1 := AfterMessage(s, data, timeout).state;
            var s2 := AfterAck(s1, event).state;
            && |s.timers| < |s2.timers|
            && var s3 := AfterTimeout(s2, |s.timers|).state;
            && s3.log == s.log + [
                 Emission(s.clientsTable[Field(data, "to_id")].socket, Name(MessageEvent), data),
                 Emission(sender, event, Encode(SuccessResult(None))),
                 Emission(sender, event, Encode(FailedResult(WaitMessageTimeout, TimeoutReason)))]
            && s3.listeners == s.listeners && s3.timers == s.timers
  {
    var event := SentEvent(Field(data, "message_id"));
    var sender := s.clientsTable[Field(data, "from_id")].socket;
    var l := AckListener(s.nextSerial, event, Some(sender));
    var s1 := AfterMessage(s, data, timeout).state;
    assert s1.listeners == s.listeners + [l] && s1.timers == s.timers + [Timer(l, timeout)];
    AckDispatchSkips(s.listeners, [l], event);
    AckDispatchOne(l);
    var s2 := AfterAck(s1, event).state;
    assert s2.log == s1.log + [Emission(sender, event, Encode(SuccessResult(None)))];
    NewestTimerFires(s2, s.listeners, s.timers, l, timeout);
  }

  /** The timer registered last fires: its listener and the timer go, and
      the sender is told `waitMessageTimeout`. */
  lemma NewestTimerFires(s: HubState, ls: seq<AckListener>, ts: seq<Timer>, l: AckListener, delay: Value)
    requires s.listeners == ls + [l] && s.timers == ts + [Timer(l, delay)]
    requires l !in ls && l.sender.Some?
    ensures var r := AfterTimeout(s, |ts|);
            && r.state.listeners == ls && r.state.timers == ts && !r.threw
            && r.state.log == s.log + [Emission(l.sender.value, l.event, Encode(FailedResult(WaitMessageTimeout, TimeoutReason)))]
  {
    assert s.timers[|ts|] == Timer(l, delay);
    RemoveAbsent(ls, l);
    RemoveAppended(ls, l);
    assert s.timers[..|ts|] == ts && s.timers[|ts| + 1..] == [];
  }

  /** The transport's dispatch of `event` to the listeners `ls`, in
      registration order: the answers they emit, and whether one threw. */
  method RunAckListeners(ls: seq<AckListener>, event: string) returns (answers: seq<Emission>, threw: bool)
    ensures (answers, threw) == AckDispatch(ls, event)
  {
    answers := [];
    threw := false;
    var i := 0;
    while i < |ls|
      invariant 0 <= i <= |ls|
      invariant AckDispatch(ls, event).0 == answers + AckDispatch(ls[i..], event).0
      invariant AckDispatch(ls, event).1 == AckDispatch(ls[i..], event).1
    {
      AckDispatchAt(ls, i, event);
      if ls[i].event == event {
        if ls[i].sender.None? {
          assert answers + [] == answers;
          return answers, true;
        }
        var answer := Emission(ls[i].sender.value, event, Encode(SuccessResult(None)));
        assert answers + AckDispatch(ls[i..], event).0 == (answers + [answer]) + AckDispatch(ls[i + 1..], event).0;
        answers := answers + [answer];
      }
      i := i + 1;
    }
    assert ls[i..] == [] && answers + [] == answers;
  }

  /** An acknowledgment sends at most one answer per listener for its event. */
  lemma {:induction false} AckDispatchBounded(ls: seq<AckListener>, event: string)
    ensures |AckDispatch(ls, event).0| <= |Matching(ls, event)|
  {
    if ls != [] {
      AckDispatchBounded(ls[1..], event);
    }
  }

  /** One step of the dispatch, taken at position `i`. */
  lemma AckDispatchAt(ls: seq<AckListener>, i: nat, event: string)
    requires i < |ls|
    ensures ls[i].event != event ==> AckDispatch(ls[i..], event) == AckDispatch(ls[i + 1..], event)
    ensures ls[i].event == event && ls[i].sender.None? ==> AckDispatch(ls[i..], event) == ([], true)
    ensures ls[i].event == event && ls[i].sender.Some? ==>
      AckDispatch(ls[i..], event) ==
        ([Emission(ls[i].sender.value, event, Encode(SuccessResult(None)))] + AckDispatch(ls[i + 1..], event).0,
         AckDispatch(ls[i + 1..], event).1)
  {
    assert ls[i..][0] == ls[i] && ls[i..][1..] == ls[i + 1..];
  }

  lemma AckDispatchOne(l: AckListener)
    requires l.sender.Some?
    ensures AckDispatch([l], l.event) == ([Emission(l.sender.value, l.event, Encode(SuccessResult(None)))], false)
  {
    var ls, e := [l], Emission(l.sender.value, l.event, Encode(SuccessResult(None)));
    assert ls[1..] == [] && [e] + [] == [e];
  }

  lemma {:induction false} RemoveAppended(ls: seq<AckListener>, l: AckListener)
    requires RemoveListener(ls, l) == ls
    ensures RemoveListener(ls + [l], l) == ls
  {
    if ls == [] {
      assert [l][1..] == [];
    } else {
      assert (ls + [l])[1..] == ls[1..] + [l];
      assert ls[0] != l by {
        assert ls[0] in ls;
      }
      assert RemoveListener(ls[1..], l) == ls[1..];
      RemoveAppended(ls[1..], l);
    }
  }

  /** The hub process: the module-level `clientsTable`, the configuration
      `serve` merged, and what the transport holds on the hub's behalf (the
      close handlers on client sockets, the acknowledgment listeners, the
      pending timers and the emissions made so far). Each handler is a method
      proved against the step function of the same name. */
  class Hub {
    var clientsTable: map<Value, Client>
    var closeHandlers: seq<CloseHandler>
    var listeners: seq<AckListener>
    var timers: seq<Timer>
    var log: seq<Emission>
    var nextSerial: nat
    const config: map<string, Value>

    function State(): HubState
      reads this
    {
      HubState(clientsTable, closeHandlers, listeners, timers, log, nextSerial)
    }

    /** `serve(userConfig)`: an empty table and the merged configuration. */
    constructor (userConfig: map<string, Value>)
      ensures config == ServeConfig(userConfig)
      ensures State() == Initial && Valid(State())
    {
      clientsTable := map[];
      closeHandlers := [];
      listeners := [];
      timers := [];
      log := [];
      nextSerial := 0;
      config := ServeConfig(userConfig);
    }

    /** The delay every timer is given: `config.messageTimeout`. */
    function MessageTimeout(): Value
    {
      Field(Obj(config), "messageTimeout")
    }

    method Subscribe(data: Value, socket: Socket, now: int) returns (threw: bool)
      requires Valid(State())
      modifies this
      ensures Step(State(), threw) == AfterSubscribe(old(State()), data, socket, now)
      ensures Valid(State())
    {
      if !Readable(data) {
        return true;
      }
      var id := Field(data, "id");
      if id in clientsTable {
        log := log + [Emission(socket, Name(SubscribeEvent),
          Encode(FailedResult(IdAlreadySubscribed, AlreadySubscribedReason(id))))];
        return false;
      }
      clientsTable := clientsTable[id := Client(socket, now)];
      closeHandlers := closeHandlers + [CloseHandler(socket, id)];
      log := log + [Emission(socket, Name(SubscribeEvent), Encode(SuccessResult(None)))];
      threw := false;
    }

    /** The socket's `close` event: its close handlers run in the order they
        were installed. */
    method Close(socket: Socket)
      requires Valid(State())
      modifies this
      ensures State() == AfterClose(old(State()), socket)
      ensures Valid(State())
    {
      var i := 0;
      while i < |closeHandlers|
        invariant 0 <= i <= |closeHandlers|
        invariant State() == old(State()).(clientsTable := clientsTable)
        invariant clientsTable == old(clientsTable) - ClosedIds(closeHandlers[..i], socket)
      {
        var h := closeHandlers[i];
        assert closeHandlers[..i + 1] == closeHandlers[..i] + [h];
        if h.socket == socket && h.id in clientsTable {
          clientsTable := clientsTable - {h.id};
        }
        i := i + 1;
      }
      assert closeHandlers[..i] == closeHandlers;
    }

    method Unsubscribe(data: Value) returns (threw: bool)
      requires Valid(State())
      modifies this
      ensures Step(State(), threw) == AfterUnsubscribe(old(State()), data)
      ensures Valid(State())
    {
      if !Readable(data) || Field(data, "id") !in clientsTable {
        return true;
      }
      var id := Field(data, "id");
      var socket := clientsTable[id].socket;
      clientsTable := clientsTable - {id};
      log := log + [Emission(socket, Name(UnsubscribeEvent), Encode(SuccessResult(Some(id))))];
      threw := false;
    }

    method Message(data: Value) returns (threw: bool)
      requires Valid(State())
      modifies this
      ensures Step(State(), threw) == AfterMessage(old(State()), data, MessageTimeout())
      ensures Valid(State())
    {
      if !Readable(data) {
        return true;
      }
      var event := SentEvent(Field(data, "message_id"));
      var sender := Lookup(clientsTable, Field(data, "from_id"));
      var destination := Lookup(clientsTable, Field(data, "to_id"));
      if destination.None? {
        if sender.None? {
          return true;
        }
        log := log + [Emission(sender.value.socket, event,
          Encode(FailedResult(ClientDisconnected, DisconnectedReason(Field(data, "to_id")))))];
        return false;
      }
      log := log + [Emission(destination.value.socket, Name(MessageEvent), data)];
      var listener := AckListener(nextSerial, event, if sender.Some? then Some(sender.value.socket) else None);
      listeners := listeners + [listener];
      timers := timers + [Timer(listener, MessageTimeout())];
      nextSerial := nextSerial + 1;
      threw := false;
      MessageKeepsValid(old(State()), data, MessageTimeout());
    }

    /** An event on a correlation name arrived: the listeners registered for
        it run in registration order; the first without a sender throws and
        ends the dispatch. */
    method Ack(event: string) returns (threw: bool)
      requires Valid(State())
      modifies this
      ensures Step(State(), threw) == AfterAck(old(State()), event)
      ensures Valid(State())
    {
      var answers;
      answers, threw := RunAckListeners(listeners, event);
      log := log + answers;
    }

    /** The `i`-th pending timer fires. */
    method TimerFire(i: nat) returns (threw: bool)
      requires Valid(State()) && i < |timers|
      modifies this
      ensures Step(State(), threw) == AfterTimeout(old(State()), i)
      ensures Valid(State())
    {
      var t := timers[i];
      timers := timers[..i] + timers[i + 1..];
      listeners := RemoveListener(listeners, t.listener);
      TimeoutKeepsValid(old(State()), i);
      if t.listener.sender.None? {
        return true;
      }
      log := log + [Emission(t.listener.sender.value, t.listener.event,
        Encode(FailedResult(WaitMessageTimeout, TimeoutReason)))];
      threw := false;
    }
  }
}
