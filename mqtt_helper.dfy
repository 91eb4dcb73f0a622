/**
 * The Android MQTT helper: connect and disconnect guarded by the library's client
 * state, the subscription registry, the replay of every stored subscription after
 * a successful connect, and the events emitted to the host application.
 *
 * The Rx chains the helper starts on the MQTT library are recorded in `chains`; a
 * chain's `Disposable` is its position there. The library's callbacks are methods
 * that take the handle of the chain they belong to; a disposed chain delivers
 * nothing, so such a call on a disposed or unknown handle changes nothing. The
 * client state is owned by the library and set through `SetState`.
 */
module MqttHelper {

  import opened Options
  import opened MqttTypes
  import opened SubscriptionRegistry
  import opened MqttChains

  /** The `connected` event: the client id and reason code 0. */
  function ConnectedEvent(clientId: string): (r: Event)
    ensures r.name == ConnectedEventName && r.params.Keys == {"clientId", "reasonCode"}
    ensures r.params["reasonCode"] == Number(0)
  {
    Event(ConnectedEventName, map["clientId" := Text(clientId), "reasonCode" := Number(0)])
  }

  /** The `disconnected` event of the disconnected listener: the reason code the
      cause yields and the cause's message. */
  function DisconnectedEvent(clientId: string, cause: DisconnectCause): (r: Event)
    ensures r.name == DisconnectedEventName && r.params.Keys == {"clientId", "reasonCode", "errorMessage"}
    ensures cause.ConnAckRejected? ==> r.params["reasonCode"] == Number(cause.connAckCode)
    ensures cause.ServerDisconnected? ==> r.params["reasonCode"] == Number(cause.disconnectCode)
    ensures cause.OtherCause? ==> r.params["reasonCode"] == Number(DisconnectionError)
  {
    Event(DisconnectedEventName, map[
      "clientId" := Text(clientId),
      "reasonCode" := Number(DisconnectReasonCode(ConnAckCode(cause), DisconnectCode(cause))),
      "errorMessage" := Text(DisconnectMessage(cause))])
  }

  /** The `mqtt_error` event of a failed connect attempt. */
  function ConnectErrorEvent(clientId: string, message: Option<string>, errorCause: Option<string>): (r: Event)
    ensures r.name == ErrorEventName
    ensures r.params.Keys == {"clientId", "clientConnected", "errorMessage", "errorCause", "errorType", "reasonCode"}
    ensures r.params["errorType"] == Text("CONNECTION") && r.params["reasonCode"] == Number(ConnectionError)
  {
    Event(ErrorEventName, map[
      "clientId" := Text(clientId),
      "clientConnected" := Flag(false),
      "errorMessage" := Text(MessageText(message)),
      "errorCause" := Text(MessageText(errorCause)),
      "errorType" := Text("CONNECTION"),
      "reasonCode" := Number(ConnectionError)])
  }

  /** The `disconnected` event of a failed disconnect. */
  function DisconnectFailedEvent(clientId: string, message: Option<string>): (r: Event)
    ensures r.name == DisconnectedEventName
    ensures r.params.Keys == {"clientId", "clientDisconnected", "errorMessage", "reasonCode"}
    ensures r.params["clientDisconnected"] == Flag(false) && r.params["reasonCode"] == Number(DisconnectionError)
  {
    Event(DisconnectedEventName, map[
      "clientId" := Text(clientId),
      "clientDisconnected" := Flag(false),
      "errorMessage" := Text(MessageText(message)),
      "reasonCode" := Number(DisconnectionError)])
  }

  /** The `subscribe_success` event: it reports the QoS actually requested from the
      broker, the fallback level of the stored code. */
  function SubscribeSuccessEventOf(eventId: string, message: string, topic: string, requestedQos: int): (r: Event)
    ensures r.name == SubscribeSuccessEvent && r.params.Keys == {"eventId", "message", "topic", "qos"}
    ensures r.params["qos"] == Number(if 0 <= requestedQos <= 2 then requestedQos else 0)
  {
    Event(SubscribeSuccessEvent, map[
      "eventId" := Text(eventId),
      "message" := Text(message),
      "topic" := Text(topic),
      "qos" := Number(QosOrDefault(requestedQos).Code())])
  }

  /** The `subscription_event` event carrying one received message. */
  function PublishEvent(eventId: string, payload: string, topic: string, qos: MqttQos): (r: Event)
    ensures r.name == SubscriptionEventName && r.params.Keys == {"eventId", "payload", "topic", "qos"}
    ensures r.params["payload"] == Text(payload) && r.params["qos"] == Number(qos.Code())
  {
    Event(SubscriptionEventName, map[
      "eventId" := Text(eventId),
      "payload" := Text(payload),
      "topic" := Text(topic),
      "qos" := Number(qos.Code())])
  }

  /** The `subscribe_failed` event. */
  function SubscribeFailedEventOf(eventId: string, message: Option<string>): (r: Event)
    ensures r.name == SubscribeFailedEvent
    ensures r.params.Keys == {"eventId", "clientSubscribed", "errorMessage", "reasonCode"}
    ensures r.params["reasonCode"] == Number(SubscriptionError)
  {
    Event(SubscribeFailedEvent, map[
      "eventId" := Text(eventId),
      "clientSubscribed" := Flag(false),
      "errorMessage" := Text(MessageText(message)),
      "reasonCode" := Number(SubscriptionError)])
  }

  /** The `mqtt_error` event of a failed broker unsubscribe. */
  function UnsubscribeErrorEvent(clientId: string, topic: string, message: Option<string>): (r: Event)
    ensures r.name == ErrorEventName
    ensures r.params.Keys == {"clientId", "clientUnsubscribed", "errorMessage", "errorType", "topic", "reasonCode"}
    ensures r.params["errorType"] == Text("UNSUBSCRIPTION") && r.params["topic"] == Text(topic)
    ensures r.params["reasonCode"] == Number(UnsubscriptionError)
  {
    Event(ErrorEventName, map[
      "clientId" := Text(clientId),
      "clientUnsubscribed" := Flag(false),
      "errorMessage" := Text(MessageText(message)),
      "errorType" := Text("UNSUBSCRIPTION"),
      "topic" := Text(topic),
      "reasonCode" := Number(UnsubscriptionError)])
  }

  /** The replay loop of `doOnSuccess`: for every topic and every event id under it,
      disposes the old chain and subscribes again with the stored QoS. The pairs are
      taken in an arbitrary order; the topic-by-topic order of the loop is one of them. */
  method Replay(reg0: Registry, chains0: seq<Chain>, disposed0: set<nat>, ghost connect: Option<nat>)
    returns (registry: Registry, log: seq<Chain>, gone: set<nat>)
    requires HelperInv(reg0, chains0, connect)
    ensures HelperInv(registry, log, connect)
    ensures Resubscribed(reg0, chains0, disposed0, registry, log, gone)
  {
    ghost var trace;
    registry, log, gone, trace := ReplayPairs(reg0, chains0, disposed0);
    ReplayAllPairs(reg0, chains0, disposed0, connect, trace);
  }

  /** The loop itself: re-subscribes every pair of `reg0` once, in the order `trace`. */
  method ReplayPairs(reg0: Registry, chains0: seq<Chain>, disposed0: set<nat>)
    returns (registry: Registry, log: seq<Chain>, gone: set<nat>, ghost trace: seq<(string, string)>)
    ensures ValidTrace(reg0, trace) && Elems(trace) == AllPairs(reg0)
    ensures ReplayOf(reg0, chains0, disposed0, trace) == ReplayState(registry, log, gone)
  {
    trace := [];
    registry, log, gone := reg0, chains0, disposed0;
    var pending := AllPairs(reg0);
    while pending != {}
      invariant pending !! Elems(trace) && pending + Elems(trace) == AllPairs(reg0)
      invariant ValidTrace(reg0, trace)
      invariant ReplayOf(reg0, chains0, disposed0, trace) == ReplayState(registry, log, gone)
      decreases pending
    {
      var topic, eventId :| (topic, eventId) in pending;
      ReplayNext(reg0, chains0, disposed0, trace, topic, eventId);
      var subscription := registry[topic][eventId];
      gone := gone + {subscription.disposable};
      registry := Subscribe(registry, eventId, topic, Subscription(|log|, subscription.qos));
      log := log + [SubscribeChain(topic, QosOrDefault(subscription.qos), eventId, subscription.qos)];
      trace := trace + [(topic, eventId)];
      pending := pending - {(topic, eventId)};
    }
  }

  class MqttHelper {
    const clientId: string
    /** topic -> (event id -> subscription). */
    var subscriptionMap: Registry
    var isManuallyDisconnecting: bool
    var connectDisposable: Option<nat>
    /** The client state, owned by the MQTT library. */
    var state: ClientState
    /** Every Rx chain started on the MQTT library, oldest first; a handle is a position. */
    var chains: seq<Chain>
    /** The handles of the chains that were disposed. */
    var disposed: set<nat>
    /** Every event emitted to the host application, oldest first. */
    var events: seq<Event>

    ghost predicate Valid()
      reads this`subscriptionMap, this`chains, this`connectDisposable
    {
      HelperInv(subscriptionMap, chains, connectDisposable)
    }

    /** The chain with this handle was started and has not been disposed, so its
        callbacks still fire. */
    predicate Live(handle: nat)
      reads this`chains, this`disposed
    {
      handle < |chains| && handle !in disposed
    }

    /** A new helper: no subscriptions, no chains, the client disconnected. The
        builder configuration of the real `init` is not part of this model. */
    constructor (clientId: string)
      ensures Valid()
      ensures this.clientId == clientId
      ensures subscriptionMap == map[] && !isManuallyDisconnecting && connectDisposable == None
      ensures state == Disconnected && chains == [] && disposed == {} && events == []
    {
      this.clientId := clientId;
      subscriptionMap := map[];
      isManuallyDisconnecting := false;
      connectDisposable := None;
      state := Disconnected;
      chains := [];
      disposed := {};
      events := [];
    }

    /** The MQTT library moves its client to another state. */
    method SetState(s: ClientState)
      modifies this`state
      ensures state == s
    {
      state := s;
    }

    /** `getConnectionStatusMqtt`: the reconnecting states report as their plain
        counterparts. */
    function GetConnectionStatusMqtt(): (r: string)
      reads this`state
      ensures r == StatusConnected <==> state == Connected
      ensures r == StatusConnecting <==> state == Connecting || state == ConnectingReconnect
      ensures r == StatusDisconnected <==> state == Disconnected || state == DisconnectedReconnect
    {
      match state
      case Connected => StatusConnected
      case Disconnected => StatusDisconnected
      case Connecting => StatusConnecting
      case DisconnectedReconnect => StatusDisconnected
      case ConnectingReconnect => StatusConnecting
    }

    /** `Disposable.dispose()`. */
    method Dispose(handle: nat)
      modifies this`disposed
      ensures disposed == old(disposed) + {handle}
    {
      disposed := disposed + {handle};
    }

    method Emit(e: Event)
      modifies this`events
      ensures events == old(events) + [e]
    {
      events := events + [e];
    }

    /** `connect`: disposes an earlier attempt that is still live; when already
        connected, re-reports success and starts nothing; when connecting, starts
        nothing; otherwise (also in the two reconnect states) starts one attempt. */
    method Connect(options: ConnectOptions)
      requires Valid()
      modifies this`disposed, this`events, this`chains, this`connectDisposable
      ensures Valid()
      ensures disposed == old(disposed) + (if old(connectDisposable).Some? then {old(connectDisposable).value} else {})
      ensures state == Connected ==>
        && events == old(events) + [ConnectedEvent(clientId)]
        && chains == old(chains) && connectDisposable == old(connectDisposable)
      ensures state == Connecting ==>
        events == old(events) && chains == old(chains) && connectDisposable == old(connectDisposable)
      ensures state != Connected && state != Connecting ==>
        && events == old(events)
        && chains == old(chains) + [ConnectChain(options)]
        && connectDisposable == Some(|old(chains)|)
    {
      if connectDisposable.Some? {
        if connectDisposable.value !in disposed {
          Dispose(connectDisposable.value);
        }
      }
      if state == Connected {
        Emit(ConnectedEvent(clientId));
        return;
      }
      if state == Connecting {
        return;
      }
      HandlesAfterAppend(subscriptionMap, chains, [ConnectChain(options)]);
      connectDisposable := Some(|chains|);
      chains := chains + [ConnectChain(options)];
    }

    /** `doOnSuccess` of a connect chain: forgets the attempt and re-subscribes every
        stored subscription. */
    method ConnectSucceeded(handle: nat)
      requires Valid()
      modifies this`connectDisposable, this`subscriptionMap, this`chains, this`disposed
      ensures Valid()
      ensures handle < |old(chains)| && old(chains)[handle].ConnectChain? && handle !in old(disposed) ==>
        && connectDisposable == None
        && Resubscribed(old(subscriptionMap), old(chains), old(disposed), subscriptionMap, chains, disposed)
      ensures !(handle < |old(chains)| && old(chains)[handle].ConnectChain? && handle !in old(disposed)) ==>
        && connectDisposable == old(connectDisposable) && subscriptionMap == old(subscriptionMap)
        && chains == old(chains) && disposed == old(disposed)
    {
      if Live(handle) && chains[handle].ConnectChain? {
        connectDisposable := None;
        ResubscribeAll();
      }
    }

    /** `doOnError` of a connect chain: forgets the attempt and reports the error. */
    method ConnectFailed(handle: nat, message: Option<string>, errorCause: Option<string>)
      requires Valid()
      modifies this`connectDisposable, this`events
      ensures Valid()
      ensures Live(handle) && chains[handle].ConnectChain? ==>
        connectDisposable == None && events == old(events) + [ConnectErrorEvent(clientId, message, errorCause)]
      ensures !(Live(handle) && chains[handle].ConnectChain?) ==>
        connectDisposable == old(connectDisposable) && events == old(events)
    {
      if Live(handle) && chains[handle].ConnectChain? {
        connectDisposable := None;
        Emit(ConnectErrorEvent(clientId, message, errorCause));
      }
    }

    /** The replay of `doOnSuccess`, run on the helper's own registry, log and
        disposed set. */
    method ResubscribeAll()
      requires Valid()
      modifies this`subscriptionMap, this`chains, this`disposed
      ensures Valid()
      ensures Resubscribed(old(subscriptionMap), old(chains), old(disposed), subscriptionMap, chains, disposed)
    {
      subscriptionMap, chains, disposed := Replay(subscriptionMap, chains, disposed, connectDisposable);
    }

    /** The library's connected listener: clears the manual-disconnect flag and reports
        the connection. */
    method OnConnected()
      modifies this`isManuallyDisconnecting, this`events
      ensures !isManuallyDisconnecting
      ensures events == old(events) + [ConnectedEvent(clientId)]
    {
      isManuallyDisconnecting := false;
      Emit(ConnectedEvent(clientId));
    }

    /** The library's disconnected listener: reports the disconnect with the reason code
        the cause carries. */
    method OnDisconnected(cause: DisconnectCause)
      modifies this`events
      ensures events == old(events) + [DisconnectedEvent(clientId, cause)]
    {
      Emit(DisconnectedEvent(clientId, cause));
    }

    /** `disconnectMqtt`: marks the disconnect as manual, disposes and forgets a pending
        connect attempt, and asks the library to disconnect unless it already is. */
    method DisconnectMqtt()
      requires Valid()
      modifies this`isManuallyDisconnecting, this`connectDisposable, this`disposed, this`chains
      ensures Valid()
      ensures isManuallyDisconnecting && connectDisposable == None
      ensures disposed == old(disposed) + (if old(connectDisposable).Some? then {old(connectDisposable).value} else {})
      ensures chains == old(chains) + (if state == Disconnected then [] else [DisconnectChain])
    {
      isManuallyDisconnecting := true;
      if connectDisposable.Some? {
        if connectDisposable.value !in disposed {
          Dispose(connectDisposable.value);
        }
        connectDisposable := None;
      }
      if state == Disconnected {
        return;
      }
      HandlesAfterAppend(subscriptionMap, chains, [DisconnectChain]);
      chains := chains + [DisconnectChain];
    }

    /** `doOnError` of a disconnect chain. */
    method DisconnectFailed(handle: nat, message: Option<string>)
      modifies this`events
      ensures Live(handle) && chains[handle].DisconnectChain? ==>
        events == old(events) + [DisconnectFailedEvent(clientId, message)]
      ensures !(Live(handle) && chains[handle].DisconnectChain?) ==>
        events == old(events)
    {
      if Live(handle) && chains[handle].DisconnectChain? {
        Emit(DisconnectFailedEvent(clientId, message));
      }
    }

    /** `subscribeMqtt`: starts a subscribe chain for the topic with the QoS the code
        names (at-most-once for an unknown code) and stores it under `eventId`. */
    method SubscribeMqtt(eventId: string, topic: string, qos: int)
      modifies this`chains, this`subscriptionMap
      ensures old(Valid()) ==> Valid()
      ensures chains == old(chains) + [SubscribeChain(topic, QosOrDefault(qos), eventId, qos)]
      ensures subscriptionMap == Subscribe(old(subscriptionMap), eventId, topic, Subscription(|old(chains)|, qos))
    {
      if Valid() {
        InvAfterSubscribe(subscriptionMap, chains, connectDisposable, eventId, topic, qos);
      }
      var disposable := |chains|;
      chains := chains + [SubscribeChain(topic, QosOrDefault(qos), eventId, qos)];
      var inner := if topic in subscriptionMap then subscriptionMap[topic] else map[];
      subscriptionMap := subscriptionMap[topic := inner[eventId := Subscription(disposable, qos)]];
    }

    /** `doOnSingle` of a subscribe chain: the broker acknowledged the subscription. */
    method SubscribeAcked(handle: nat, message: string)
      modifies this`events
      ensures if Live(handle) && chains[handle].SubscribeChain?
        then events == old(events) + [SubscribeSuccessEventOf(chains[handle].eventId, message,
                                                              chains[handle].topic, chains[handle].requestedQos)]
        else events == old(events)
    {
      if Live(handle) && chains[handle].SubscribeChain? {
        var c := chains[handle];
        Emit(SubscribeSuccessEventOf(c.eventId, message, c.topic, c.requestedQos));
      }
    }

    /** `doOnNext` of a subscribe chain: a message arrived on the subscription. */
    method PublishReceived(handle: nat, payload: string, publishTopic: string, publishQos: MqttQos)
      modifies this`events
      ensures if Live(handle) && chains[handle].SubscribeChain?
        then events == old(events) + [PublishEvent(chains[handle].eventId, payload, publishTopic, publishQos)]
        else events == old(events)
    {
      if Live(handle) && chains[handle].SubscribeChain? {
        Emit(PublishEvent(chains[handle].eventId, payload, publishTopic, publishQos));
      }
    }

    /** `doOnError` of a subscribe chain: reported only while no manual disconnect is
        in progress. */
    method SubscribeFailed(handle: nat, message: Option<string>)
      modifies this`events
      ensures if Live(handle) && chains[handle].SubscribeChain? && !isManuallyDisconnecting
        then events == old(events) + [SubscribeFailedEventOf(chains[handle].eventId, message)]
        else events == old(events)
    {
      if Live(handle) && chains[handle].SubscribeChain? {
        if !isManuallyDisconnecting {
          Emit(SubscribeFailedEventOf(chains[handle].eventId, message));
        }
      }
    }

    /** `unsubscribeMqtt`, as written: an unknown topic changes nothing. Otherwise the
        id's chain is disposed if the id is present; then the id is removed when the topic
        has other subscribers, or else the whole topic is removed together with a broker
        unsubscribe, even when the id was not among them (see `Unsubscribe`). */
    method UnsubscribeMqtt(eventId: string, topic: string)
      requires Valid()
      modifies this`subscriptionMap, this`disposed, this`chains
      ensures Valid()
      ensures !Has(subscriptionMap, topic, eventId)
      ensures var r := Unsubscribe(old(subscriptionMap), eventId, topic);
        && subscriptionMap == r.registry
        && disposed == old(disposed) + (if r.dispose.Some? then {r.dispose.value} else {})
        && chains == old(chains) + (if r.unsubscribe then [UnsubscribeChain(topic)] else [])
    {
      ghost var reg0, chains0 := subscriptionMap, chains;
      var r := Unsubscribe(subscriptionMap, eventId, topic);
      disposed := disposed + (if r.dispose.Some? then {r.dispose.value} else {});
      chains := chains + (if r.unsubscribe then [UnsubscribeChain(topic)] else []);
      subscriptionMap := r.registry;
      assert HelperInv(subscriptionMap, chains, connectDisposable) by {
        InvAfterUnsubscribe(reg0, chains0, connectDisposable, eventId, topic, subscriptionMap, chains);
      }
    }

    /** `doOnError` of an unsubscribe chain. */
    method UnsubscribeFailed(handle: nat, message: Option<string>)
      modifies this`events
      ensures if Live(handle) && chains[handle].UnsubscribeChain?
        then events == old(events) + [UnsubscribeErrorEvent(clientId, chains[handle].unsubscribeTopic, message)]
        else events == old(events)
    {
      if Live(handle) && chains[handle].UnsubscribeChain? {
        Emit(UnsubscribeErrorEvent(clientId, chains[handle].unsubscribeTopic, message));
      }
    }
  }
}
