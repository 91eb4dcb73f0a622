/**
 * Values the Android MQTT helper works with: quality-of-service levels, the
 * client states the MQTT library reports, reason codes, and the events it emits
 * to the host application (an event name and a parameter map).
 */
module MqttTypes {

  import opened Options

  /** MQTT quality of service. */
  datatype MqttQos = AtMostOnce | AtLeastOnce | ExactlyOnce {
    function Code(): int
    {
      match this
      case AtMostOnce => 0
      case AtLeastOnce => 1
      case ExactlyOnce => 2
    }
  }

  /** `MqttQos.fromCode`: the level with the given code, if there is one. */
  function QosFromCode(code: int): (r: Option<MqttQos>)
    ensures r.Some? <==> 0 <= code <= 2
    ensures r.Some? ==> r.value.Code() == code
  {
    if code == 0 then Some(AtMostOnce)
    else if code == 1 then Some(AtLeastOnce)
    else if code == 2 then Some(ExactlyOnce)
    else None
  }

  /** `MqttQos.fromCode(code) ?: MqttQos.AT_MOST_ONCE`: a valid code is kept and a
      code outside 0..2 falls back to at-most-once. */
  function QosOrDefault(code: int): (r: MqttQos)
    ensures 0 <= code <= 2 ==> r.Code() == code
    ensures !(0 <= code <= 2) ==> r == AtMostOnce
  {
    QosFromCode(code).GetOr(AtMostOnce)
  }

  /** Looking up a level by its own code gives the level back. */
  lemma QosRoundTrip(q: MqttQos)
    ensures QosFromCode(q.Code()) == Some(q)
    ensures QosOrDefault(q.Code()) == q
  {
  }

  /** The states of the MQTT library's client. */
  datatype ClientState = Disconnected | Connecting | Connected | DisconnectedReconnect | ConnectingReconnect

  const StatusConnected: string := "connected"
  const StatusConnecting: string := "connecting"
  const StatusDisconnected: string := "disconnected"

  // Event names
  const ClientInitializeEvent: string := "client_initialize"
  const ConnectedEventName: string := "connected"
  const DisconnectedEventName: string := "disconnected"
  const SubscribeSuccessEvent: string := "subscribe_success"
  const SubscribeFailedEvent: string := "subscribe_failed"
  const SubscriptionEventName: string := "subscription_event"
  const ErrorEventName: string := "mqtt_error"

  // Error reason codes
  const DefaultError: int := -1
  const ConnectionError: int := -2
  const DisconnectionError: int := -3
  const SubscriptionError: int := -4
  const UnsubscriptionError: int := -5
  const InitializationError: int := -6
  const RxChainError: int := -7

  /** A parameter value of an emitted event. */
  datatype Value = Text(text: string) | Number(number: int) | Flag(flag: bool)

  /** One event handed to the host application. */
  datatype Event = Event(name: string, params: map<string, Value>)

  /** Kotlin's `message.toString()` on a message that may be null. */
  function MessageText(message: Option<string>): string
  {
    message.GetOr("null")
  }

  /** Why the library reports the client disconnected. */
  datatype DisconnectCause =
    | ConnAckRejected(connAckCode: int, message: Option<string>)      // a `Mqtt5ConnAckException`
    | ServerDisconnected(disconnectCode: int, message: Option<string>) // a `Mqtt5DisconnectException`
    | OtherCause(message: Option<string>)

  /** The CONNACK reason code, when the cause is a rejected connect (a failed cast
      gives null). */
  function ConnAckCode(cause: DisconnectCause): Option<int>
  {
    if cause.ConnAckRejected? then Some(cause.connAckCode) else None
  }

  /** The DISCONNECT reason code, when the server sent one. */
  function DisconnectCode(cause: DisconnectCause): Option<int>
  {
    if cause.ServerDisconnected? then Some(cause.disconnectCode) else None
  }

  /** `connPayload ?: disconnectPayload ?: DISCONNECTION_ERROR`. */
  function DisconnectReasonCode(connAck: Option<int>, disconnect: Option<int>): (r: int)
    ensures connAck.Some? ==> r == connAck.value
    ensures connAck.None? && disconnect.Some? ==> r == disconnect.value
    ensures connAck.None? && disconnect.None? ==> r == DisconnectionError
  {
    connAck.GetOr(disconnect.GetOr(DisconnectionError))
  }

  /** The reason code of a disconnect event: the protocol's code when the cause
      carries one, and the client-local disconnection code otherwise. */
  lemma DisconnectReasonOfCause(cause: DisconnectCause)
    ensures var r := DisconnectReasonCode(ConnAckCode(cause), DisconnectCode(cause));
      match cause
      case ConnAckRejected(code, _) => r == code
      case ServerDisconnected(code, _) => r == code
      case OtherCause(_) => r == DisconnectionError
  {
  }

  /** The error message of a disconnect event: the cause's message, or
      "Unknown error" when it has none. */
  function DisconnectMessage(cause: DisconnectCause): (r: string)
    ensures cause.message.Some? ==> r == cause.message.value
    ensures cause.message.None? ==> r == "Unknown error"
  {
    cause.message.GetOr("Unknown error")
  }
}
