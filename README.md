# node-a-message-broker, modelled in Dafny

The broker has one hub process and any number of client processes, connected through node-ipc:

- The hub keeps a table of subscribed client ids. It forwards `message` events from one client to another.
- For each forwarded message, the hub waits for an acknowledgment on the message's correlation event, `"<message_id>_sent"`. It answers the sender with success, or with `waitMessageTimeout` once its timer fires.
- A client is a `ConnectionInstance` (or the older `IPCConnection`). It subscribes under an id, sends messages, acknowledges the messages it receives, and unsubscribes.
- There are three generations of the client:
  - the shipped `src/client.ts`;
  - the second generation `src/client/clientConnection.ts`, with its event-handler tables in `src/client/eventHandlers.ts`;
  - the legacy `src/index.ts`.

The project models the following:

- the protocol vocabulary of `src/types.ts`;
- the hub of `src/server.ts`;
- the three client generations;
- their composition: the hub and the shipped client, run against each other.

## Files

- `wrappers.dfy`: `Option`.
- `js.dfy`: the JavaScript values that travel in events, and the JavaScript operations the code relies on:
  - property reads that give `undefined`;
  - object spread;
  - the text a template literal inserts, with decimal numerals proved injective;
  - a `Completion` for a call that returns or throws.
- `protocol.dfy`: `Status`, `ErrorCode` with its numeric values, and `EventResult` with its encoding as a transported object, decoding proved as its inverse.
  - It also has the event names, the event maps, `MessageConfig`, and the `"<id>_sent"` correlation event.
- `hub.dfy`:
  - Each hub handler is a step function over `HubState`: the client table, the close handlers, the acknowledgment listeners, the pending timers and the log of emissions.
  - The step functions come with an invariant, lemmas over any run of events, and the properties of each handler.
  - `class Hub` holds the same state in fields. Each of its methods is proved equal to its step function.
- `ipc.dfy`: the client side of node-ipc as `class Channel`:
  - registered listeners, and `on`, `off`, `off(event, '*')`;
  - a trace of what the client emitted, called and disconnected;
  - the merged `ipc.config`.

  It also has `class Promise`, whose first settlement wins.
- `event_handlers.dfy`, `client_connection.dfy`, `client.dfy`, `legacy.dfy`: one module per client generation.
  - A class with the instance's fields, and its methods.
  - A datatype of the closures the generation registers. The transport runs a closure through a `Run…` method, which requires that closure to be registered for the delivered event.
  - The process-wide `connections` registry as a class.
- `composition.dfy`:
  - lemmas on where the generations agree with the hub on the wire, and where they do not;
  - scenarios that pass each emission between `Hub` and shipped-client objects by hand: subscribe, subscribe twice, send and acknowledge, send to an absent client, time out, unsubscribe and subscribe again, and no hub running.

## Behaviour of the code worth knowing

Where the code does something other than a caller would expect, the model does what the code does.

- The timeout is meant to fire only when the target does not acknowledge in time (the comment at `src/server.ts:80`). However, `isSent` is the constant `false` (`src/server.ts:62`).
  - Every timer therefore reports `waitMessageTimeout`, even after a success (`Hub.AcknowledgedMessageStillTimesOut`).
  - The acknowledgment listener is never removed before the timeout, so every acknowledgment before it is answered (`Hub.AckAnswersEveryListener`).
- The close handler is meant to clean up a connection that was interrupted without `unsubscribe` (the comment at `src/server.ts:127`). It tests only the id (`src/server.ts:128-131`), so an old socket's close also removes a later subscription of the same id (`Hub.StaleCloseRemovesResubscription`).
- `serve` accepts a `messageTimeout`, but `start()` hands `serve` to the transport, which passes none. The hub always runs with 2000 (`Hub.StartUsesDefaultTimeout`).
- The sender is assumed to be in the table (the comment at `src/server.ts:40`). When it is not, the hub's non-null assertion gives `undefined`:
  - an answer to an absent target throws;
  - an acknowledgment listener or timer with no sender throws when it runs (`Hub.AfterMessage`, `Hub.AckDispatch`, `Hub.AfterTimeout`).
- The test "if the client is still active" (the comment at `src/server.ts:65`) reads the socket captured at send time. A socket object is always truthy, so the test never skips a reply.
- `unsubscribe` never clears the instance's transport or `isSubscribed`, in any client generation.
- Every client operation is guarded by `isNil(this.ipc)`, not by `isSubscribed`.
  - In `src/client.ts` and `src/index.ts`, `send`'s guard sits inside the promise executor, so it rejects the promise rather than throwing.
- `emitListOfSubscribers` never settles its promise, and the hub has no handler for `listOfSubscribers`.
- Several imported names are not defined in the files they come from. The model treats the payloads as the plain JavaScript values the code builds:
  - `src/client.ts:2`: `MessageObject`, `EventTypesHandlersMap`, `Result`, `FailedResult`;
  - `src/index.ts:2`: `Clients`, `EventTypes`, `MessageStatusObject`;
  - `src/server.ts:3`: `MessageObject` and `SubscribeConfig`, which `src/types.ts` lacks;
  - `HUB_ID` (imported at `src/server.ts:2`), `isSuccess` (imported at `src/client.ts:3`) and `isFailed` (re-exported at `src/client.ts:177`), which `src/utils/index.ts` does not define. `isSuccess` is modelled as "`status` is `success`", and the hub id as `hub`.

## Model

| member | source | states |
|---|---|---|
| Js.Field | src/server.ts:38-41 | a property read gives something other than `undefined` only from an object holding the key, and then it is that key's value |
| Js.Assign | src/server.ts:28 | `{ ...target, ...source }` has exactly the keys of both, the source's values winning and the target's kept otherwise |
| Js.NatToDecimal | src/server.ts:38 | a natural's numeral is a nonempty run of digits, one digit long exactly below 10 |
| Js.NatToDecimalInjective | src/server.ts:38 | distinct naturals have distinct numerals |
| Js.IntToDecimalInjective | src/server.ts:38 | distinct integers have distinct numerals |
| Js.ErrorObject | src/client.ts:39 | `new Error(message)` is an object whose `message` is the given text |
| Js.ToJsString | src/server.ts:38 | a template literal inserts a string unchanged and a number as an optional `-` followed by digits |
| Protocol.StatusNameInjective | src/types.ts:21-24 | `Status` has exactly the two tags `failed` and `success`, with distinct wire strings |
| Protocol.Ordinal | src/types.ts:31-41 | every error code has a numeric value below 4 |
| Protocol.OrdinalsInDeclarationOrder | src/types.ts:31-41 | the codes are 0, 1, 2, 3 in declaration order; the reverse mapping is defined exactly on 0..3 and inverts the forward one |
| Protocol.DecodeEncode | src/types.ts:26-48 | every `EventResult` (success with or without payload, failure with code and reason) is read back unchanged from the object it is sent as |
| Protocol.Encode | src/types.ts:26-48 | a result is sent as an object whose `status` is its tag's string, a failure carrying its code's number and its reason, and a `payload` key exactly when a success has one |
| Protocol.Decode | src/types.ts:26-48 | an object read as a result has the result's status string, and a failure's code number and reason |
| Protocol.IsSuccess | src/types.ts:26-29 | only an object with a `status` key can be a success |
| Protocol.IsSuccessAgreesWithTag | src/types.ts:47-48 | `isSuccess` on a transported result holds exactly for the success tag, also on any object that decodes as a result |
| Protocol.ResponseCodes | src/types.ts:62-69 | exactly the events other than `message` and `connect` are answered with an `EventResult`; `subscribe`'s is typed with `idAlreadySubscribed` |
| Protocol.SubscribeResponseFailures | src/types.ts:42-46 | a subscribe response fails only with `idAlreadySubscribed` or `hubIsNotActive` |
| Protocol.MessageConfigSplits | src/types.ts:9-13 | the caller's send config and the client's `messageId` are exactly the two parts of a `MessageConfig` |
| Protocol.SentEventShape | src/server.ts:38 | correlation events end in `_sent`, never equal a protocol event name, and distinct numeric ids give distinct events |
| Protocol.NoNameIsSentEvent | src/types.ts:50-57 | no fixed event name ends in `_sent` |
| Protocol.SentEvent | src/server.ts:38 | `${message_id}_sent` is the id's text followed by `_sent` |
| EventHandlers.NameInjective | src/types.ts:50-57 | the six event kinds have six distinct names |
| EventHandlers.DispatchTablesMatchProtocol | src/client/eventHandlers.ts:21-72 | `onHandlers` has an entry exactly for the client-subscribable events, `emitHandlers` exactly for the client-emitable ones, `send` mapping to `emitMessage` |
| EventHandlers.OnHandlerFor | src/client/eventHandlers.ts:21-23 | `onHandlers` has an entry exactly for `message` |
| EventHandlers.EmitHandlerFor | src/client/eventHandlers.ts:69-72 | `emitHandlers` maps `send` to `emitMessage` and `listOfSubscribers` to `emitListOfSubscribers`, and nothing else to either |
| Hub.ServeConfig | src/server.ts:19-28 | the merged config has every user key with the user's value, and `messageTimeout` is the user's or 2000 |
| Hub.StartUsesDefaultTimeout | src/server.ts:154-158 | started through `start()`, the hub's timeout is 2000 |
| Hub.Lookup | src/server.ts:41-42 | `clientsTable.get` finds a record exactly when the key is in the table, and it is that key's record |
| Hub.AfterSubscribe | src/server.ts:103-141 | unreadable data throws; a known id is refused with `idAlreadySubscribed` on the requesting socket and only the log changes; a fresh id gains exactly one record `{socket, now}`, one close handler, and a success reply, nothing else changing |
| Hub.AfterClose | src/server.ts:125-133 | a closed socket removes exactly the ids of its close handlers that are still in the table and changes nothing else |
| Hub.ClosedIds | src/server.ts:125-133 | the ids closed with a socket are exactly those of the close handlers registered on it |
| Hub.AfterUnsubscribe | src/server.ts:142-151 | a known id is removed and its stored socket gets success with the id as payload; an unknown id throws and changes nothing |
| Hub.AfterMessage | src/server.ts:31-101 | to an absent target: one `clientDisconnected` reply to the sender, no forward, no listener, no timer (a sender missing too throws); to a present target: the data forwarded unchanged and exactly one listener and one timer for the correlation event |
| Hub.AckDispatch | src/server.ts:63-78 | an acknowledgment sends only successes on its event, and throws exactly when a matching listener has no sender |
| Hub.AckDispatchBounded | src/server.ts:63-78 | an acknowledgment sends at most one answer per listener for its event |
| Hub.AfterAck | src/server.ts:63-78 | an acknowledgment only appends the listeners' successes to the log; listeners and timers stay |
| Hub.RemoveListener | src/server.ts:85 | `off(event, waitCallback)` removes exactly that closure |
| Hub.AfterTimeout | src/server.ts:81-100 | a fired timer is removed with its listener, and the sender is told `waitMessageTimeout` on the correlation event |
| Hub.Matching | src/server.ts:75-78 | the listeners for an event are exactly the registered ones with that event |
| Hub.RemoveAt | src/server.ts:85 | removing a listener that occurs once takes out exactly its position |
| Hub.TimeoutKeepsValid | src/server.ts:81-100 | a timer firing keeps listeners and timers in one-to-one correspondence with distinct serials |
| Hub.MessageKeepsValid | src/server.ts:75-81 | registering a listener and its timer keeps the invariant |
| Hub.ApplyKeepsValid | src/server.ts:31-151 | every handler keeps the invariant |
| Hub.InitialValid | src/server.ts:15 | the empty hub satisfies the invariant and has an empty log |
| Hub.RunKeepsValid | src/server.ts:31-151 | the invariant holds after any sequence of handler runs and timer firings |
| Hub.GoneListenerStaysGone | src/server.ts:75-85 | a removed acknowledgment listener is never registered again |
| Hub.TimedOutListenerNeverReturns | src/server.ts:83-85 | after its timer fires, a message's listener is absent in every later state, so no success follows a timeout |
| Hub.AckWithoutListenerIsSilent | src/server.ts:75-78 | an acknowledgment with no listener for it emits nothing and does not throw |
| Hub.AckAnswersEveryListener | src/server.ts:63-78 | with live senders, an acknowledgment sends one success to each matching listener's sender, in registration order, and nothing throws |
| Hub.Answers | src/server.ts:67-71 | one success per listener, to that listener's sender on the event, in order |
| Hub.Apply | src/server.ts:31-151 | no handler removes or rewrites an emission already made, and serials never go back |
| Hub.Run | src/server.ts:31-151 | over any run of handlers and timers the log only grows at its end, and serials never go back |
| Hub.AckDispatchSkips | src/server.ts:75-78 | listeners for other events do not affect an acknowledgment |
| Hub.AckDispatchOne | src/server.ts:63-73 | a single listener answers its acknowledgment with one success to its sender |
| Hub.RemoveAppended | src/server.ts:85 | removing the last-registered closure restores the earlier listeners |
| Hub.NewestTimerFires | src/server.ts:83-98 | the newest timer firing restores the earlier listeners and timers and sends `waitMessageTimeout` to its sender |
| Hub.AckRepliesWellTyped | src/server.ts:67-71 | acknowledgment replies are successes on correlation events |
| Hub.SubscribeRepliesWellTyped | src/server.ts:107-139 | subscribe replies decode as results that fail only with `idAlreadySubscribed` |
| Hub.UnsubscribeRepliesWellTyped | src/server.ts:149 | unsubscribe replies decode as successes |
| Hub.MessageRepliesWellTyped | src/server.ts:45-60 | a message produces a forward or a `clientDisconnected` reply on the correlation event |
| Hub.TimeoutRepliesWellTyped | src/server.ts:86-97 | a timeout produces a `waitMessageTimeout` reply on the correlation event |
| Hub.ApplyKeepsWellTypedLog | src/server.ts:31-151 | every handler keeps every emission on a protocol or correlation event, with the payload its response type allows |
| Hub.NewRepliesWellTyped | src/server.ts:31-151 | what any one handler adds to the log reads as its event's response type says |
| Hub.RunKeepsWellTypedLog | src/types.ts:62-69 | every reply a hub ever emits reads as its event's response type says |
| Hub.SecondSubscribeRefused | src/server.ts:107-118 | the second subscribe of an id is refused on the second socket with `idAlreadySubscribed`, and the first record stays |
| Hub.SubscribeUnsubscribeRoundTrip | src/server.ts:120-150 | subscribe then unsubscribe restores table, listeners and timers, answering with the id; the close handler stays behind |
| Hub.CloseFreesTheId | src/server.ts:125-133 | a socket closing without unsubscribe frees its id, which can subscribe again at once |
| Hub.StaleCloseRemovesResubscription | src/server.ts:128-131 | after unsubscribe and a re-subscribe through another socket, the old socket's close removes the new record |
| Hub.AcknowledgedMessageStillTimesOut | src/server.ts:62-100 | a forwarded, acknowledged message gets success and then `waitMessageTimeout` on the same event, and listeners and timers end as before |
| Hub.Hub.constructor | src/server.ts:15-28 | a new hub has an empty table, no listeners, no timers and the merged config |
| Hub.Hub.Subscribe | src/server.ts:103-141 | the `subscribe` handler changes the hub exactly as `AfterSubscribe` and keeps the invariant |
| Hub.Hub.Close | src/server.ts:125-133 | running the socket's close handlers one by one changes the hub exactly as `AfterClose` |
| Hub.Hub.Unsubscribe | src/server.ts:142-151 | the `unsubscribe` handler changes the hub exactly as `AfterUnsubscribe` |
| Hub.Hub.Message | src/server.ts:31-101 | the `message` handler, with the configured timeout, changes the hub exactly as `AfterMessage` and keeps the invariant |
| Hub.Hub.Ack | src/server.ts:63-78 | running the matching listeners in order changes the hub exactly as `AfterAck` |
| Hub.RunAckListeners | src/server.ts:63-78 | the transport runs the listeners in registration order, collecting their answers and stopping at the first that throws, exactly as `AckDispatch` says |
| Hub.Hub.TimerFire | src/server.ts:81-100 | a pending timer firing changes the hub exactly as `AfterTimeout` and keeps the invariant |
| Ipc.HandlersFor | src/client.ts:40-43 | the handlers for an event are exactly those registered under it |
| Ipc.Without | src/client.ts:50-53 | `off(event, handler)` removes exactly that registration |
| Ipc.WithoutEvent | src/client.ts:88 | `off(event, '*')` removes exactly the registrations for that event |
| Ipc.HandlersForConcat | src/client.ts:40-43 | handlers of concatenated registrations concatenate |
| Ipc.OnAppends | src/client.ts:40-43 | `on` adds its handler last for its event and changes no other event |
| Ipc.OffDrops | src/client.ts:50-53 | `off` drops the handler from its event and leaves other events alone |
| Ipc.OffAllEmpties | src/client.ts:88 | after `off(event, '*')` no handler remains for the event and other events are unchanged |
| Ipc.MergedSnoc | src/client.ts:106-110 | `Object.assign` of several sources merges them left to right |
| Ipc.Merged | src/client.ts:106-110 | `Object.assign(target, ...sources)` keeps every key of the target and the sources, the last source's values winning |
| Ipc.Settle | src/client.ts:87 | `res`/`rej` leaves the promise settled; a pending promise takes the new settlement and a settled one keeps its own |
| Ipc.MergedTwo | src/client.ts:106-110 | with two sources, the later source's keys win over the earlier's, which win over the target's |
| Ipc.FirstSettlementWins | src/client/eventHandlers.ts:54-55 | once settled, a promise ignores every later `res`/`rej` |
| Ipc.Channel.constructor | src/client.ts:98 | a new transport has no listeners, an empty trace and the default config |
| Ipc.Channel.On | src/client.ts:40-43 | `on` appends one registration |
| Ipc.Channel.Off | src/client.ts:50-53 | `off` removes that handler's registrations for the event |
| Ipc.Channel.OffAll | src/client.ts:88 | `off(event, '*')` removes the event's registrations |
| Ipc.Channel.Emit | src/client.ts:77-80 | `emit` appends exactly one emission |
| Ipc.Channel.Call | src/client.ts:64 | calling a caller's handler is recorded once with its data |
| Ipc.Channel.Disconnect | src/client.ts:166 | `disconnect` is recorded once |
| Ipc.Channel.Configure | src/client.ts:106-110 | `Object.assign(ipc.config, …)` leaves the config merged with the sources in order |
| Ipc.Promise.constructor | src/client.ts:72 | a new promise is pending |
| Ipc.Promise.Thrown | src/client.ts:72-74 | an executor that throws gives a promise rejected with the error |
| Ipc.Promise.Resolve | src/client.ts:87 | `res` settles a pending promise and is ignored otherwise |
| Ipc.Promise.Reject | src/client.ts:87 | `rej` settles a pending promise and is ignored otherwise |
| EventHandlers.WithMessageIdField | src/client/eventHandlers.ts:43 | `{ ...config, messageId }` has the config's keys plus `messageId`, which holds the drawn id |
| EventHandlers.AckMatchesSenderEvent | src/client/eventHandlers.ts:17-49 | the ack a receiver emits for such a message is the sender's correlation event |
| EventHandlers.OnMessageAck | src/client/eventHandlers.ts:17-20 | one `"<messageId>_sent"` emission per received message, nothing else; `null` or `undefined` data throws `TypeError` on reading `messageId` and emits nothing |
| EventHandlers.SendMessage | src/client/eventHandlers.ts:36-58 | emits the config with the drawn id as a `message` event and registers one correlation listener on a pending promise |
| EventHandlers.RunMessageReply | src/client/eventHandlers.ts:52-56 | a success resolves, anything else rejects, and no listener remains for the correlation event |
| EventHandlers.ListOfSubscribers | src/client/eventHandlers.ts:60-67 | emits the config unchanged and returns a promise nothing settles |
| Connection.SubscribeConfig | src/client/clientConnection.ts:96-106 | the transport config is the base `{id, retry 500, maxRetries 0, silent true}` over the defaults, with the caller's keys winning |
| Connection.BaseConfig | src/client/clientConnection.ts:96-101 | the base settings are exactly `id`, retry 500, maxRetries 0 and silent |
| Connection.HubUnreachable | src/client/clientConnection.ts:143 | only an error object carrying `syscall` and `code` can mean the hub is unreachable |
| Connection.EmitConfig | src/client/clientConnection.ts:86 | the emitted config is the caller's with `clientId` set to the instance id, overriding the caller's |
| Connection.UnreachableResult | src/client/clientConnection.ts:145-150 | the unreachable-hub rejection is a failure with `hubIsNotActive` |
| Connection.ConnectionInstance.On | src/client/clientConnection.ts:56-68 | without a transport throws and changes nothing; otherwise registers the wrapper and returns the caller's handler |
| Connection.ConnectionInstance.Off | src/client/clientConnection.ts:70-77 | without a transport throws; otherwise removes the handler's registrations |
| Connection.ConnectionInstance.Emit | src/client/clientConnection.ts:79-88 | without a transport throws; otherwise dispatches to `emitMessage` or `emitListOfSubscribers` with `clientId` set, and an event with no emit handler throws |
| Connection.ConnectionInstance.Subscribe | src/client/clientConnection.ts:90-156 | a new configured transport with the `connect`, `subscribe` and `error` handlers registered, a pending promise, the instance unchanged |
| Connection.ConnectionInstance.Unsubscribe | src/client/clientConnection.ts:157-175 | without a transport throws; otherwise registers the reply handler and emits `{id}` |
| Connection.ConnectionInstance.RunWrapped | src/client/clientConnection.ts:61-65 | the wrapper runs the built-in ack before the caller's handler; with no built-in handler, no stored transport, or `null`/`undefined` data it throws `TypeError` and changes nothing; the ack goes to the stored transport and the call to the channel that delivered the data, even when the two differ |
| Connection.ConnectionInstance.RunOnSubscribe | src/client/clientConnection.ts:124-137 | success stores the transport, sets `isSubscribed` and resolves; failure rejects and changes no field |
| Connection.ConnectionInstance.RunOnUnsubscribe | src/client/clientConnection.ts:164-168 | resolves `true` and disconnects, leaving the instance's fields |
| Connection.RunOnConnect | src/client/clientConnection.ts:113-121 | on connect, emits `subscribe` with the configured id |
| Connection.RunOnError | src/client/clientConnection.ts:139-152 | a `connect`/`ENOENT` error rejects with `hubIsNotActive`; any other error changes nothing |
| Connection.OffWithReturnedHandlerKeepsWrapper | src/client/clientConnection.ts:56-77 | `off` with the handler `on` returned leaves the wrapper registered |
| Connection.Registry.New | src/client/clientConnection.ts:48-54 | a known id gives its registered instance, unchanged; a new id gives a fresh unsubscribed instance, registered |
| ShippedClient.SubscribeConfig | src/client.ts:100-110 | the transport config is the base `{id, retry 500, maxRetries 0, silent true}` over the defaults, with the caller's keys winning |
| ShippedClient.BaseConfig | src/client.ts:100-105 | the base settings are exactly `id`, retry 500, maxRetries 0 and silent |
| ShippedClient.HubUnreachable | src/client.ts:147 | only an error object carrying `syscall` and `code` can mean the hub is unreachable |
| ShippedClient.SendPayload | src/client.ts:79 | the payload carries exactly `from_id`, `to_id`, `message` and `message_id` |
| ShippedClient.AckMatchesSendEvent | src/client.ts:63-82 | the receiver's ack of a sent payload is the sender's correlation event |
| ShippedClient.UnreachableResult | src/client.ts:147-150 | the unreachable-hub rejection is a failure with `hubIsNotActive` |
| ShippedClient.ConnectionInstance.On | src/client.ts:37-45 | without a transport throws and changes nothing; otherwise registers the caller's handler and returns it |
| ShippedClient.ConnectionInstance.Off | src/client.ts:47-54 | without a transport throws; otherwise removes the handler's registrations |
| ShippedClient.ConnectionInstance.OnMessage | src/client.ts:56-68 | without a transport throws; otherwise registers the ack-then-call wrapper and returns the caller's handler |
| ShippedClient.ConnectionInstance.Send | src/client.ts:70-92 | without a transport a rejected promise; otherwise emits the payload with the drawn id and waits on its correlation event |
| ShippedClient.ConnectionInstance.Subscribe | src/client.ts:94-155 | a new configured transport with the `connect`, `subscribe` and `error` handlers registered and a pending promise |
| ShippedClient.ConnectionInstance.Unsubscribe | src/client.ts:156-174 | without a transport throws; otherwise registers the reply handler and emits `{id}` |
| ShippedClient.ConnectionInstance.RunAckThenCall | src/client.ts:61-65 | emits the `"<message_id>_sent"` ack before calling the handler; without a stored transport, or on `null`/`undefined` data, throws `TypeError` before emitting or calling; the ack goes to the stored transport and the call to the delivering channel, even when the two differ |
| ShippedClient.ConnectionInstance.RunOnSendReply | src/client.ts:85-89 | success resolves, anything else rejects, then no listener remains for the correlation event |
| ShippedClient.ConnectionInstance.RunOnSubscribe | src/client.ts:128-141 | success stores the transport, sets `isSubscribed` and resolves; failure rejects and changes no field |
| ShippedClient.ConnectionInstance.RunOnUnsubscribe | src/client.ts:163-167 | resolves `true` and disconnects, leaving the instance's fields |
| ShippedClient.RunOnConnect | src/client.ts:115-125 | on connect, emits `subscribe` with the configured id |
| ShippedClient.RunOnError | src/client.ts:143-151 | a `connect`/`ENOENT` error rejects with `hubIsNotActive`; any other error changes nothing |
| ShippedClient.RunCaller | src/client.ts:40-43 | a caller's handler registered with `on` is called with the event's data |
| ShippedClient.OffUndoesOn | src/client.ts:37-54 | `off` with the handler `on` returned restores the event's handlers |
| ShippedClient.DropAbsent | src/client.ts:50-53 | removing a handler that is not registered leaves the handlers as they are |
| ShippedClient.Registry.New | src/client.ts:29-35 | a known id gives its registered instance, unchanged; a new id gives a fresh unsubscribed instance, registered |
| LegacyClient.SubscribeSettings | src/index.ts:89-93 | the config gets `id`, retry 2000, maxRetries `true` and silent, other keys kept |
| LegacyClient.SendPayload | src/index.ts:68-72 | the payload carries exactly `from_id`, `to_id`, `message` and `message_id` |
| LegacyClient.IPCConnection.On | src/index.ts:32-40 | without a transport throws; otherwise registers and returns the caller's handler |
| LegacyClient.IPCConnection.Off | src/index.ts:41-48 | without a transport throws, with the "adding event handlers" message; otherwise removes the handler |
| LegacyClient.IPCConnection.OnMessage | src/index.ts:49-61 | without a transport throws; otherwise registers the ack-then-call wrapper |
| LegacyClient.IPCConnection.Send | src/index.ts:62-84 | without a transport a rejected promise; otherwise emits the payload and waits on the correlation event |
| LegacyClient.IPCConnection.Subscribe | src/index.ts:85-127 | a new transport with the legacy settings and the `connect`, `subscribed` and `disconnect` handlers, and a pending promise |
| LegacyClient.IPCConnection.Unsubscribe | src/index.ts:128-147 | without a transport throws; otherwise waits on `unsubscribed` and emits `unsubscribe` with `{id}` |
| LegacyClient.IPCConnection.RunAckThenCall | src/index.ts:54-58 | emits the ack before calling the handler; without a stored transport, or on `null`/`undefined` data, throws `TypeError` before emitting or calling; the ack goes to the stored transport and the call to the delivering channel, even when the two differ |
| LegacyClient.IPCConnection.RunOnSendReply | src/index.ts:77-81 | any reply resolves, never rejects, and the correlation listeners go |
| LegacyClient.IPCConnection.RunOnSubscribed | src/index.ts:110-117 | a `subscribed` reply stores the transport and resolves |
| LegacyClient.IPCConnection.RunOnUnsubscribed | src/index.ts:133-139 | an `unsubscribed` reply resolves `true` and disconnects |
| LegacyClient.RunOnConnect | src/index.ts:97-108 | on connect, emits `subscribe` with the configured id |
| LegacyClient.RunCaller | src/index.ts:35-38 | a caller's handler registered with `on` is called with the event's data |
| LegacyClient.Registry.New | src/index.ts:26-31 | a known id gives its registered instance; a new id a fresh one, registered |
| Composition.ShippedSendAgreesWithHub | src/server.ts:35-78 | the shipped client's payload is forwarded as is to a subscribed target, with the hub listening on the sender's correlation event; to an absent target the sender is told `clientDisconnected` on that event |
| Composition.ShippedAckReachesHubListener | src/client.ts:63 | the receiving shipped client acks on the event the hub's new listener waits on |
| Composition.SecondGenerationPayloadMissesHub | src/client/eventHandlers.ts:43 | the second generation's payload gives the hub `undefined` ids: the hub throws, forwards nothing, and its correlation event is not the sender's |
| Composition.UndefinedIsNoNumeral | src/server.ts:38 | the text `undefined` is not the numeral of any message id |
| Composition.LegacyRepliesNeverCome | src/index.ts:110-117 | no hub run ever emits `subscribed` or `unsubscribed`, so legacy subscribe and unsubscribe never settle |
| Composition.Handshake | src/client.ts:112-141 | a shipped client's subscribe against the hub: a fresh id is recorded under the client's socket and the promise resolves with the transport; a known id rejects with `idAlreadySubscribed` and leaves both sides |
| Composition.HubAnswersSubscribe | src/server.ts:107-139 | a fresh id is recorded under the socket and answered with a success; a known id leaves the table and is answered with `idAlreadySubscribed` |
| Composition.TwoInstances | src/client.ts:29-35 | in a fresh process, the instances for two distinct ids are two distinct new objects with those ids |
| Composition.TwoSubscribed | src/server.ts:120-139 | "a" and "b" subscribe through sockets 0 and 1 and are both recorded |
| Composition.SendAndAck | src/server.ts:56-78 | a message from "a" to "b", acknowledged by "b", is answered to "a" with success while its timer stays pending |
| Composition.SendToPresent | src/server.ts:34-60 | a message from "a" to a known "b" is forwarded to "b"'s socket, and one listener for its correlation event waits with "a" as sender |
| Composition.TimeOutForA | src/server.ts:81-100 | the single pending timer answers "a" with `waitMessageTimeout` on the message's correlation event |
| Composition.SendIsAcknowledged | src/client.ts:82-89 | the send promise resolves with success, and the later timeout finds no listener on the sender |
| Composition.AckOnReceipt | src/client.ts:61-64 | the receiver's ack reaches the hub's single listener for the message, whose sender is answered with success; `null`/`undefined` data throws before the ack and the hub hears nothing; listeners and timers stay |
| Composition.SubscribeTwice | src/server.ts:107-118 | a second subscribe of "a" is rejected with `idAlreadySubscribed` and "a" keeps its first transport |
| Composition.SendToAbsent | src/server.ts:45-53 | sending to an unsubscribed "b" answers `clientDisconnected` and starts no timer |
| Composition.OneSubscribed | src/server.ts:120-139 | "a" subscribes to a fresh hub through socket 0 and is recorded there |
| Composition.SendToAbsentTarget | src/server.ts:45-53 | the send promise is rejected with `clientDisconnected` for "b" |
| Composition.SendTimesOut | src/server.ts:81-100 | with no acknowledgment, the send promise is rejected with `waitMessageTimeout` |
| Composition.UnsubscribeRound | src/server.ts:142-151 | unsubscribing empties the hub's table, resolves `true` and disconnects the client |
| Composition.UnsubscribeAndReturn | src/client.ts:156-174 | after unsubscribe and the socket's close, "a" is absent from the hub and subscribes again successfully |
| Composition.ConnectErrorUnreachable | src/client.ts:147 | of the connect errors, exactly `ENOENT` means the hub is unreachable |
| Composition.HubNotRunning | src/client.ts:143-151 | with no hub, an unrelated error leaves subscribe pending and `ENOENT` rejects it with `hubIsNotActive` |

## Left out

- The node-ipc transport itself is not part of this model. It is modelled as a listener table plus a trace of emissions on the client side and an emission log on the hub side. Which listener the transport runs, and when, is chosen by the caller of the `Run…` methods and hub steps.
- `off(event, '*')` is taken to remove every listener for that event, and `off(event, handler)` every registration of that handler.
- Real time, `setTimeout` and `Date.now`: timers are explicit firing steps in any order, and `connectedAt` is a parameter.
- `randomNumber` uses floating-point `Math.random`. The message id is a parameter in [0, 1000000), and id collisions are not handled.
- Logging (`log`, `console.log`) has no effect on state and is left out.
- What happens to the process after a handler throws is left out; the model records that it threw.
- node-ipc's default `ipc.config` is a parameter (`defaults`), and the hub's own `ipc.config` is not modelled.
- A caller's handler is recorded as called with its data. What it does is not modelled.
- `TypeError` messages are the engine's and are not modelled.
- Objects are compared structurally; every id, name and number used as a key is a primitive.
- Numbers are integers below 10^21 in magnitude, and arrays do not occur. The model writes every integer in full, where JavaScript writes `1e+21` from 10^21 on. This affects the correlation event `${message_id}_sent` and the reason texts only for ids a foreign sender chose.
- LegacyClient.Registry.New: ids are not names of `Object.prototype` properties. For an id such as `constructor` or `toString`, the plain-object lookup at `src/index.ts:28` finds the inherited property and returns it; the model registers a fresh instance.
- EventHandlers.OnHandlerFor, EventHandlers.EmitHandlerFor: event names are not names of `Object.prototype` properties. For such a name, `onHandlers[event]` and `emitHandlers[event]` (`src/client/clientConnection.ts:63,87`) find the inherited function and call it; the model gives `undefined` and throws.
- The hub has no `listOfSubscribers` handler, so the hub side has nothing to model for it.
- Build and demo code (esbuild.js, rollup.config.js, the examples directory) is not part of this model.
- Hub.Hub.Close: the handlers run in registration order over the socket's close handlers; the order in which node-ipc calls them is not modelled.
