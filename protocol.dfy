/**
 * The protocol vocabulary shared by the hub and every client generation:
 * result statuses, error codes, the `EventResult` tagged union and its
 * encoding as a transported object, the event names, the message
 * configuration, and the `"<messageId>_sent"` correlation event.
 */
module Protocol {
  import opened Wrappers
  import opened Js

  /** `Status`: a result either failed or succeeded. */
  datatype Status = Failed | Success

  /** The string each status tag carries on the wire. */
  function StatusName(s: Status): string
  {
    match s
    case Failed => "failed"
    case Success => "success"
  }

  lemma StatusNameInjective(s: Status, t: Status)
    ensures StatusName(s) == StatusName(t) <==> s == t
    ensures s == Failed || s == Success
  {
  }

  /** `ErrorCode`, a numeric enum: the declaration order gives the values. */
  datatype ErrorCode = IdAlreadySubscribed | ClientDisconnected | WaitMessageTimeout | HubIsNotActive

  function Ordinal(c: ErrorCode): (n: nat)
    ensures n < 4
  {
    match c
    case IdAlreadySubscribed => 0
    case ClientDisconnected => 1
    case WaitMessageTimeout => 2
    case HubIsNotActive => 3
  }

  /** The reverse mapping a numeric enum has: `ErrorCode[n]`. */
  function CodeOf(n: int): Option<ErrorCode>
  {
    if n == 0 then Some(IdAlreadySubscribed)
    else if n == 1 then Some(ClientDisconnected)
    else if n == 2 then Some(WaitMessageTimeout)
    else if n == 3 then Some(HubIsNotActive)
    else None
  }

  /** The four codes are 0, 1, 2, 3 in declaration order, and the numeric
      value of a code determines the code. */
  lemma OrdinalsInDeclarationOrder(c: ErrorCode, n: int)
    ensures Ordinal(IdAlreadySubscribed) == 0 && Ordinal(ClientDisconnected) == 1
    ensures Ordinal(WaitMessageTimeout) == 2 && Ordinal(HubIsNotActive) == 3
    ensures CodeOf(Ordinal(c)) == Some(c)
    ensures CodeOf(n).Some? <==> 0 <= n < 4
    ensures CodeOf(n).Some? ==> Ordinal(CodeOf(n).value) == n
  {
  }

  /** `EventResult`: `SuccessEventResult` with an optional payload, or
      `FailedEventResult` with a code and a human-readable reason. */
  datatype EventResult =
    | SuccessResult(payload: Option<Value>)
    | FailedResult(errorCode: ErrorCode, reason: string)

  function StatusOf(r: EventResult): Status
  {
    if r.SuccessResult? then Success else Failed
  }

  /** `FailedEventResult<C>`: a failure typed with the codes `C` may carry one
      of them or `hubIsNotActive`, which every request can meet. */
  predicate Within(r: EventResult, codes: set<ErrorCode>)
  {
    r.FailedResult? ==> r.errorCode in codes || r.errorCode == HubIsNotActive
  }

  /** The object a result is sent as: `{status, payload?}` or
      `{status, errorCode, reason}`. */
  function Encode(r: EventResult): (v: Value)
    ensures v.Obj? && Field(v, "status") == Str(StatusName(StatusOf(r)))
    ensures r.FailedResult? ==> Field(v, "errorCode") == Num(Ordinal(r.errorCode)) && Field(v, "reason") == Str(r.reason)
    ensures "payload" in v.fields <==> r.SuccessResult? && r.payload.Some?
  {
    match r
    case SuccessResult(None) =>
      Obj(map["status" := Str(StatusName(Success))])
    case SuccessResult(Some(p)) =>
      Obj(map["status" := Str(StatusName(Success)), "payload" := p])
    case FailedResult(c, reason) =>
      Obj(map["status" := Str(StatusName(Failed)), "errorCode" := Num(Ordinal(c)), "reason" := Str(reason)])
  }

  /** Reads a transported object back as a result; `None` when it is not one. */
  function Decode(v: Value): (r: Option<EventResult>)
    ensures r.Some? ==> v.Obj? && Field(v, "status") == Str(StatusName(StatusOf(r.value)))
    ensures r.Some? && r.value.FailedResult? ==>
      Field(v, "errorCode") == Num(Ordinal(r.value.errorCode)) && Field(v, "reason") == Str(r.value.reason)
  {
    if !v.Obj? then None
    else if Field(v, "status") == Str(StatusName(Success)) then
      Some(SuccessResult(if "payload" in v.fields then Some(v.fields["payload"]) else None))
    else if Field(v, "status") == Str(StatusName(Failed))
         && Field(v, "errorCode").Num? && CodeOf(Field(v, "errorCode").n).Some?
         && Field(v, "reason").Str?
    then
      Some(FailedResult(CodeOf(Field(v, "errorCode").n).value, Field(v, "reason").s))
    else None
  }

  /** `isSuccess`: the object's status is `success`. */
  predicate IsSuccess(v: Value)
    ensures IsSuccess(v) ==> v.Obj? && "status" in v.fields
  {
    Field(v, "status") == Str(StatusName(Success))
  }

  /** Every result survives the transport unchanged. */
  lemma DecodeEncode(r: EventResult)
    ensures Decode(Encode(r)) == Some(r)
  {
    match r
    case SuccessResult(None) =>
    case SuccessResult(Some(p)) =>
    case FailedResult(c, reason) =>
      OrdinalsInDeclarationOrder(c, Ordinal(c));
  }

  /** `isSuccess` on a transported result agrees with its tag, and on any
      object that decodes as a result. */
  lemma IsSuccessAgreesWithTag(r: EventResult, v: Value)
    ensures IsSuccess(Encode(r)) <==> r.SuccessResult?
    ensures Decode(v).Some? ==> (IsSuccess(v) <==> Decode(v).value.SuccessResult?)
  {
  }

  /** `EventType`: the named events of the protocol. */
  datatype EventType =
    | MessageEvent | SendEvent | SubscribeEvent | UnsubscribeEvent | ConnectEvent | ListOfSubscribersEvent

  function Name(e: EventType): string
  {
    match e
    case MessageEvent => "message"
    case SendEvent => "send"
    case SubscribeEvent => "subscribe"
    case UnsubscribeEvent => "unsubscribe"
    case ConnectEvent => "connect"
    case ListOfSubscribersEvent => "listOfSubscribers"
  }

  /** `ClientSubscribableEvents`: a client may listen only to `message`. */
  predicate ClientSubscribable(e: EventType)
  {
    e == MessageEvent
  }

  /** `ClientEmitableEvents`: a client may emit only `send` and `listOfSubscribers`. */
  predicate ClientEmitable(e: EventType)
  {
    e == SendEvent || e == ListOfSubscribersEvent
  }

  /** `EventResponsesMap`: for the events answered with an `EventResult`, the
      failure codes the answer is typed with; `None` for `message` (answered
      by the message itself) and `connect` (answered by nothing). */
  function ResponseCodes(e: EventType): (r: Option<set<ErrorCode>>)
    ensures r.Some? <==> e !in {MessageEvent, ConnectEvent}
    ensures e == SubscribeEvent ==> r == Some({IdAlreadySubscribed})
  {
    match e
    case SubscribeEvent => Some({IdAlreadySubscribed})
    case SendEvent | ListOfSubscribersEvent | UnsubscribeEvent =>
      Some({IdAlreadySubscribed, ClientDisconnected, WaitMessageTimeout, HubIsNotActive})
    case MessageEvent | ConnectEvent => None
  }

  /** A subscribe response typed as the map says can only fail with
      `idAlreadySubscribed` or `hubIsNotActive`. */
  lemma SubscribeResponseFailures(r: EventResult)
    requires Within(r, ResponseCodes(SubscribeEvent).value)
    ensures r.FailedResult? ==> r.errorCode == IdAlreadySubscribed || r.errorCode == HubIsNotActive
  {
  }

  /** `MessageConfig`: what a message carries once the client has numbered it. */
  datatype MessageConfig = MessageConfig(message: Value, messageId: int, targetId: string)

  /** `Omit<MessageConfig, 'messageId'>`: what the caller of `send` supplies. */
  datatype SendConfig = SendConfig(message: Value, targetId: string)

  function WithMessageId(c: SendConfig, messageId: int): MessageConfig
  {
    MessageConfig(c.message, messageId, c.targetId)
  }

  function OmitMessageId(m: MessageConfig): SendConfig
  {
    SendConfig(m.message, m.targetId)
  }

  /** The caller's config and the client's id are exactly the two parts of a
      `MessageConfig`. */
  lemma MessageConfigSplits(c: SendConfig, messageId: int, m: MessageConfig)
    ensures OmitMessageId(WithMessageId(c, messageId)) == c
    ensures WithMessageId(c, messageId).messageId == messageId
    ensures WithMessageId(OmitMessageId(m), m.messageId) == m
  {
  }

  /** A send configuration as the object a caller passes. */
  function SendConfigObject(c: SendConfig): map<string, Value>
  {
    map["message" := c.message, "targetId" := Str(c.targetId)]
  }

  /** The correlation event of a message: `${messageId}_sent`. */
  function SentEvent(messageId: Value): (s: string)
    ensures IsSentEvent(s) && s[..|s| - 5] == ToJsString(messageId)
  {
    ToJsString(messageId) + "_sent"
  }

  predicate IsSentEvent(name: string)
  {
    5 <= |name| && name[|name| - 5..] == "_sent"
  }

  /** No fixed event name ends in `_sent`. */
  lemma NoNameIsSentEvent(e: EventType)
    ensures !IsSentEvent(Name(e))
  {
    var n := Name(e);
    if 5 <= |n| {
      assert n[|n| - 5] != '_';
    }
  }

  /** Correlation events end in `_sent`, so they never collide with the fixed
      event names, and distinct numeric ids give distinct events. */
  lemma SentEventShape(v: Value, e: EventType, a: int, b: int)
    ensures IsSentEvent(SentEvent(v))
    ensures SentEvent(v) != Name(e)
    ensures SentEvent(Num(a)) == SentEvent(Num(b)) ==> a == b
  {
    NoNameIsSentEvent(e);
    if SentEvent(Num(a)) == SentEvent(Num(b)) {
      var sa, sb := SentEvent(Num(a)), SentEvent(Num(b));
      assert IntToDecimal(a) == sa[..|sa| - 5] == sb[..|sb| - 5] == IntToDecimal(b);
      IntToDecimalInjective(a, b);
    }
  }
}
