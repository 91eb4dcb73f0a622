# d11-react-native-mqtt: socket adapter and subscription helper, in Dafny

This project models the two native components of the React Native MQTT client
that hold its client logic.

- **The iOS byte-stream socket over WebSocket (`CocoaMQTTWebSocket`).** The MQTT
  engine reads an exact number of bytes and writes frames. The socket sits on a
  message-framed WebSocket. Inbound binary frames go into a receive buffer.
  A read that the buffer cannot satisfy yet is queued. After every frame, one
  pass over the queue serves each request the buffer can now satisfy.
  - `bytestream.dfy` (module `ByteStream`) gives that pass as a function on
    values (`Scan`, a left fold of one `Step` per queued request). It proves
    byte conservation, exact-length delivery, queue order, and that the queue
    is settled after the pass.
  - `cocoa_websocket.dfy` (module `CocoaWebSocket`) is the class itself. It has
    the buffer, the queue, a log of delegate notifications and a log of calls
    on the WebSocket. `ProcessPendingReads` is the source's `while i < count`
    loop, proved equal to `Scan`. The class invariant `Valid` is conservation
    across the whole session: bytes read, followed by the buffer, equal every
    byte received since the last disconnect.
  - `websocket_url.dfy` (module `WebSocketUrl`) builds the address
    `scheme://host:port` + path and the upgrade request's header fields.
- **The Android subscription registry and connection guards (`MqttHelper`).**
  - `subscription_registry.dfy` holds the registry, topic → (event id →
    subscription), and its subscribe and unsubscribe transitions as functions.
  - `mqtt_chains.dfy` holds the invariant that ties stored subscriptions to the
    Rx chains they own, and the specification of the replay after a connect.
  - `mqtt_helper.dfy` is the class. Its methods mutate the registry, the
    manual-disconnect flag and the pending connect attempt. The Rx chains it
    starts on the MQTT library are a log, and a chain's `Disposable` is its
    position in that log. The library's callbacks are methods that take that
    handle. A disposed chain delivers nothing.
  - `mqtt_types.dfy` holds QoS codes, client states, reason codes and the events
    sent to the host application.
- `options.dfy` is the optional value used for Kotlin and Swift nullables.

Behaviour of the code worth knowing:

- Subscribing or unsubscribing while disconnected still starts a chain on the
  MQTT library. The code has no connected check there.
- `connect` in the CONNECTING or CONNECTED state is not a pure no-op. It first
  disposes an earlier attempt that is still live.
- Queued reads are not served strictly first-in first-out. A later, smaller
  request is served past an earlier one the buffer cannot satisfy yet
  (`ByteStream.SmallerRequestOvertakes`). Bytes still leave the buffer in
  arrival order.
- `readData` with enough bytes buffered is served at once, even while other
  reads are queued.
- The manual-disconnect flag only suppresses `subscribe_failed` events. The
  native helper never turns on the MQTT library's automatic reconnect.
  Reconnecting belongs to the TypeScript client, which is not part of this model.
- Unsubscribing an id that the topic does not have is a no-op when the topic has
  two or more other subscribers, or when the topic is gone. When exactly one
  other subscriber is left, that subscriber is dropped and the topic is
  unsubscribed at the broker (see Findings). The helper class follows the code
  as written. The corrected rule `UnsubscribeIntended` is proved to keep the
  same invariant.

## Model

| member | source | states |
|---|---|---|
| `CocoaWebSocket.CocoaMQTTWebSocket.constructor` | ios/mqtt/CocoaMQTTWebSocket.swift:28-33 | A new socket has an empty buffer and queue, path `/mqtt`, no custom headers and no TLS. |
| `CocoaWebSocket.CocoaMQTTWebSocket.WithUri` | ios/mqtt/CocoaMQTTWebSocket.swift:35-38 | `init(uri:)` is the default socket with the given path. |
| `CocoaWebSocket.CocoaMQTTWebSocket.SetEnableSSL` | ios/mqtt/CocoaMQTTWebSocket.swift:14-20 | Setting the TLS flag rebuilds the WebSocket from the last address when there is one, and otherwise leaves it alone. |
| `CocoaWebSocket.CocoaMQTTWebSocket.ConfigureWebSocket` | ios/mqtt/CocoaMQTTWebSocket.swift:60-75 | The WebSocket is rebuilt from the address and the request headers: the custom headers plus the MQTT sub-protocol. |
| `CocoaWebSocket.CocoaMQTTWebSocket.Connect` | ios/mqtt/CocoaMQTTWebSocket.swift:49-58 | If the URL parser accepts the built address, it is stored, a WebSocket is built for it and opened. Otherwise the call fails with `invalidURL` and nothing changes. |
| `CocoaWebSocket.CocoaMQTTWebSocket.Disconnect` | ios/mqtt/CocoaMQTTWebSocket.swift:77-101 | Closes the WebSocket if there is one and drops it. Tells the delegate at once with no error. Empties the buffer and the queue. Starts a new conservation session: an empty session that begins after the disconnect notice. |
| `CocoaWebSocket.CocoaMQTTWebSocket.ReadData` | ios/mqtt/CocoaMQTTWebSocket.swift:103-133 | With at least `length` bytes buffered, delivers exactly the first `length` bytes for the tag and keeps the rest; the queue is unchanged even when non-empty. Otherwise it appends `(length, tag)` to the queue and delivers nothing. Conservation holds after either branch, and a settled queue stays settled. |
| `CocoaWebSocket.CocoaMQTTWebSocket.Write` | ios/mqtt/CocoaMQTTWebSocket.swift:135-151 | With a WebSocket, sends the bytes as one frame and reports the tag as written. Without one, nothing happens. |
| `CocoaWebSocket.CocoaMQTTWebSocket.ProcessPendingReads` | ios/mqtt/CocoaMQTTWebSocket.swift:153-186 | The loop runs over local copies of the buffer and queue. It then stores exactly the buffer and queue that `Scan` gives and appends `Scan`'s chunks to the notices, in order. Afterwards every queued request is larger than the buffer, and conservation holds. |
| `CocoaWebSocket.CocoaMQTTWebSocket.Notify` | ios/mqtt/CocoaMQTTWebSocket.swift:194-246 | A connection notice is appended to the delegate's notices, and conservation holds, since it carries no bytes. |
| `CocoaWebSocket.CocoaMQTTWebSocket.DidReceive` | ios/mqtt/CocoaMQTTWebSocket.swift:189-257 | A binary frame is appended to the buffer and the queue is then served. Connected, disconnected, error, cancelled and peer-closed events become the matching delegate notice. Text, ping, pong, viability and reconnect-suggested events change nothing. |
| `CocoaWebSocket.PassConserves` | ios/mqtt/CocoaMQTTWebSocket.swift:157-184 | Bytes read before a pass, then the pass's deliveries, then the remaining buffer, equal the bytes read before followed by the starting buffer. |
| `ByteStream.Scan` | ios/mqtt/CocoaMQTTWebSocket.swift:157-184 | The pass over the queue as a left fold: each request is either kept or served, exactly once. |
| `ByteStream.ScanShrinks` | ios/mqtt/CocoaMQTTWebSocket.swift:161-164 | The buffer only shrinks during a pass. |
| `ByteStream.ScanConserves` | ios/mqtt/CocoaMQTTWebSocket.swift:161-169 | The delivered chunks in delivery order, followed by the final buffer, equal the starting buffer: no byte is lost, duplicated or reordered. |
| `ByteStream.ScanExactLength` | ios/mqtt/CocoaMQTTWebSocket.swift:161-164 | Every delivered chunk has exactly its request's length. |
| `ByteStream.ScanSettles` | ios/mqtt/CocoaMQTTWebSocket.swift:157-184 | After a pass, every request still queued asks for more bytes than the buffer holds. |
| `ByteStream.ScanSplitsQueue` | ios/mqtt/CocoaMQTTWebSocket.swift:157-184 | A pass splits the queue into two order-preserving subsequences: the requests it keeps and the requests it serves, in delivery order. |
| `ByteStream.TenByteRead` | ios/mqtt/CocoaMQTTWebSocket.swift:157-184 | A 10-byte read with 4 bytes buffered stays queued. Once 6 more bytes arrive, it receives all 10 and nothing stays buffered. |
| `ByteStream.SmallerRequestOvertakes` | ios/mqtt/CocoaMQTTWebSocket.swift:157-184 | With 3 bytes buffered and reads of 5 then 2 queued, the 2-byte read is served first from the front bytes, and the 5-byte read stays queued. |
| `WebSocketUrl.Decimal` | ios/mqtt/CocoaMQTTWebSocket.swift:51 | The port's text is a non-empty string of decimal digits with no leading zero. |
| `WebSocketUrl.DecimalRoundTrip` | ios/mqtt/CocoaMQTTWebSocket.swift:51 | Reading the port's decimal text back gives the port. |
| `WebSocketUrl.SocketUrl` | ios/mqtt/CocoaMQTTWebSocket.swift:50-51 | The address is the scheme and `://`, then the host, a `:`, the port's decimal text and the path. |
| `WebSocketUrl.SocketUrlScheme` | ios/mqtt/CocoaMQTTWebSocket.swift:50-51 | The address starts with `wss://` exactly when TLS is enabled and with `ws://` exactly when it is not. It ends with the path. |
| `WebSocketUrl.SocketUrlInjective` | ios/mqtt/CocoaMQTTWebSocket.swift:50-51 | For a fixed host and path, the address determines the TLS flag and the port. |
| `WebSocketUrl.AddValue` | ios/mqtt/CocoaMQTTWebSocket.swift:65 | Adding a header field keeps every other field. A new field takes the value; a field already set gets a comma and the value appended. |
| `WebSocketUrl.RequestHeaders` | ios/mqtt/CocoaMQTTWebSocket.swift:61-69 | The request carries every custom header. `Sec-WebSocket-Protocol` is `mqtt`, or the custom value followed by `,mqtt`. |
| `WebSocketUrl.BuildRequest` | ios/mqtt/CocoaMQTTWebSocket.swift:60-71 | The header loop, in any dictionary order, builds exactly the request headers for the address. |
| `MqttTypes.QosFromCode` | android/src/main/java/com/dream11/mqtt/MqttHelper.kt:256 | A code names a QoS level exactly when it is 0, 1 or 2, and then the level has that code. |
| `MqttTypes.QosOrDefault` | android/src/main/java/com/dream11/mqtt/MqttHelper.kt:256 | A valid code is kept, and a code outside 0..2 falls back to at-most-once (0). |
| `MqttTypes.QosRoundTrip` | android/src/main/java/com/dream11/mqtt/MqttHelper.kt:265 | Looking up a level by its own code gives the level back, with or without the fallback. |
| `MqttTypes.DisconnectMessage` | android/src/main/java/com/dream11/mqtt/MqttHelper.kt:73-77 | The error message is the cause's message, or "Unknown error" when it has none. |
| `MqttTypes.DisconnectReasonCode` | android/src/main/java/com/dream11/mqtt/MqttHelper.kt:72 | The reason code is the CONNACK code if present, else the DISCONNECT code, else -3. |
| `MqttTypes.DisconnectReasonOfCause` | android/src/main/java/com/dream11/mqtt/MqttHelper.kt:56-72 | A rejected connect reports its CONNACK code, a server disconnect its DISCONNECT code, and any other cause -3. |
| `SubscriptionRegistry.Subscribe` | android/src/main/java/com/dream11/mqtt/MqttHelper.kt:303-306 | Sets `(topic, eventId)` to the new subscription, creating the topic when absent. Every other pair keeps its presence and value. No topic is left empty. |
| `SubscriptionRegistry.Unsubscribe` | android/src/main/java/com/dream11/mqtt/MqttHelper.kt:309-348 | The rule as written. An unknown topic changes nothing. The id's chain is disposed exactly when the id is present. The broker unsubscribe happens exactly when the topic has at most one subscriber. |
| `SubscriptionRegistry.UnsubscribeShared` | android/src/main/java/com/dream11/mqtt/MqttHelper.kt:315-317 | With more than one subscriber, only that id is removed (a no-op if absent). The topic stays, and every other pair is unchanged. |
| `SubscriptionRegistry.UnsubscribeLast` | android/src/main/java/com/dream11/mqtt/MqttHelper.kt:318-346 | With at most one subscriber, the topic is unsubscribed at the broker and removed whole. Every other topic is unchanged. |
| `SubscriptionRegistry.SubscribeThenUnsubscribe` | android/src/main/java/com/dream11/mqtt/MqttHelper.kt:303-346 | Subscribing a new topic and then unsubscribing the same id gives back the registry, disposes the new chain and unsubscribes the topic once. |
| `SubscriptionRegistry.UnsubscribeEachDrains` | android/src/main/java/com/dream11/mqtt/MqttHelper.kt:309-348 | Removing all of a topic's subscribers one by one issues exactly one broker unsubscribe and leaves the other topics as they were. |
| `SubscriptionRegistry.UnsubscribeStrangerDropsSubscriber` | android/src/main/java/com/dream11/mqtt/MqttHelper.kt:315-346 | As written, unsubscribing an id the topic lacks, when one other subscriber is left, drops that subscriber and unsubscribes the topic, without disposing the dropped subscriber's chain. |
| `SubscriptionRegistry.UnsubscribeNotIdempotent` | android/src/main/java/com/dream11/mqtt/MqttHelper.kt:315-346 | As written, after `a` and `b` subscribe, removing `a` twice also removes `b` and unsubscribes the topic. |
| `SubscriptionRegistry.UnsubscribeIntended` | android/src/main/java/com/dream11/mqtt/MqttHelper.kt:309-348 | The corrected rule never leaves a topic without subscribers. |
| `SubscriptionRegistry.UnsubscribeIntendedRemovesOnlyPair` | android/src/main/java/com/dream11/mqtt/MqttHelper.kt:309-348 | The corrected rule removes exactly `(topic, eventId)`. It unsubscribes the topic exactly when that id was its only subscriber, and a second call is a no-op. |
| `MqttChains.AllPairs` | android/src/main/java/com/dream11/mqtt/MqttHelper.kt:173-174 | The replay visits exactly the (topic, event id) pairs of the registry. |
| `MqttChains.InvAfterSubscribe` | android/src/main/java/com/dream11/mqtt/MqttHelper.kt:253-307 | Subscribing keeps the helper's invariant: no empty topic, every stored handle names its subscribe chain, and a pending attempt names a connect chain. |
| `MqttChains.InvAfterUnsubscribe` | android/src/main/java/com/dream11/mqtt/MqttHelper.kt:309-348 | The removal as written, with the unsubscribe chain it may start, keeps the helper's invariant. |
| `MqttChains.InvAfterUnsubscribeIntended` | android/src/main/java/com/dream11/mqtt/MqttHelper.kt:309-348 | The corrected removal keeps the helper's invariant as well, so it can replace the rule as written. |
| `MqttChains.ReplayOfReplayed` | android/src/main/java/com/dream11/mqtt/MqttHelper.kt:173-178 | Replaying registry pairs in any order, each at most once, renews exactly those pairs and disposes exactly their old chains. |
| `MqttChains.ReplayOfShape` | android/src/main/java/com/dream11/mqtt/MqttHelper.kt:173-178 | The replay keeps the topics, event ids and QoS codes. |
| `MqttChains.ReplayAllPairs` | android/src/main/java/com/dream11/mqtt/MqttHelper.kt:170-178 | Replaying every pair once resubscribes the registry. Keys and QoS stay, each pair holds a new chain for its topic, id and QoS, each new chain is held by one pair, and every old chain is disposed. The invariant holds. |
| `MqttHelper.ConnectedEvent` | android/src/main/java/com/dream11/mqtt/MqttHelper.kt:84-88 | `connected` carries the client id and reason code 0. |
| `MqttHelper.DisconnectedEvent` | android/src/main/java/com/dream11/mqtt/MqttHelper.kt:70-80 | `disconnected` carries the client id, the message, and the CONNACK code, the DISCONNECT code or -3, according to the cause. |
| `MqttHelper.ConnectErrorEvent` | android/src/main/java/com/dream11/mqtt/MqttHelper.kt:183-191 | `mqtt_error` of a connect attempt has the six fields of the source, type `CONNECTION` and reason code -2. |
| `MqttHelper.DisconnectFailedEvent` | android/src/main/java/com/dream11/mqtt/MqttHelper.kt:236-242 | `disconnected` of a failed disconnect has the four fields of the source, `clientDisconnected` false and reason code -3. |
| `MqttHelper.SubscribeSuccessEventOf` | android/src/main/java/com/dream11/mqtt/MqttHelper.kt:261-267 | `subscribe_success` reports the requested code when it is 0..2 and 0 otherwise. |
| `MqttHelper.PublishEvent` | android/src/main/java/com/dream11/mqtt/MqttHelper.kt:270-276 | `subscription_event` carries the payload and the message's QoS code. |
| `MqttHelper.SubscribeFailedEventOf` | android/src/main/java/com/dream11/mqtt/MqttHelper.kt:286-292 | `subscribe_failed` has the four fields of the source and reason code -4. |
| `MqttHelper.UnsubscribeErrorEvent` | android/src/main/java/com/dream11/mqtt/MqttHelper.kt:329-337 | `mqtt_error` of an unsubscribe has the six fields of the source, type `UNSUBSCRIPTION`, the topic and reason code -5. |
| `MqttHelper.Replay` | android/src/main/java/com/dream11/mqtt/MqttHelper.kt:170-179 | The replay of `doOnSuccess` resubscribes the whole registry and keeps the helper's invariant. |
| `MqttHelper.ReplayPairs` | android/src/main/java/com/dream11/mqtt/MqttHelper.kt:173-178 | One loop over the set of the registry's (topic, event id) pairs visits every pair once, in any order, and its result is the replay of that visit order. |
| `MqttHelper.MqttHelper.constructor` | android/src/main/java/com/dream11/mqtt/MqttHelper.kt:23-26 | A new helper has an empty registry, the flag cleared, no pending attempt, and the client disconnected. |
| `MqttHelper.MqttHelper.SetState` | android/src/main/java/com/dream11/mqtt/MqttHelper.kt:146 | The library moves the client to the given state. |
| `MqttHelper.MqttHelper.GetConnectionStatusMqtt` | android/src/main/java/com/dream11/mqtt/MqttHelper.kt:350-372 | CONNECTED gives "connected". CONNECTING and CONNECTING_RECONNECT give "connecting". DISCONNECTED and DISCONNECTED_RECONNECT give "disconnected". Each holds in both directions. |
| `MqttHelper.MqttHelper.Dispose` | android/src/main/java/com/dream11/mqtt/MqttHelper.kt:139-141 | Disposing a chain adds its handle to the disposed set, and nothing else changes. |
| `MqttHelper.MqttHelper.Emit` | android/src/main/java/com/dream11/mqtt/MqttHelper.kt:21 | Emitting appends the event to the events sent to the host application. |
| `MqttHelper.MqttHelper.Connect` | android/src/main/java/com/dream11/mqtt/MqttHelper.kt:134-200 | A live earlier attempt is disposed first. When CONNECTED, it emits `connected` with reason code 0 and starts nothing. When CONNECTING, it starts nothing. Otherwise it starts one connect chain and records it as pending. |
| `MqttHelper.MqttHelper.ConnectSucceeded` | android/src/main/java/com/dream11/mqtt/MqttHelper.kt:170-179 | On success of the live attempt, it forgets the attempt and resubscribes every stored subscription as `ReplayAllPairs` states. A stale or disposed chain changes nothing. |
| `MqttHelper.MqttHelper.ConnectFailed` | android/src/main/java/com/dream11/mqtt/MqttHelper.kt:180-198 | On failure of the live attempt, it forgets the attempt and emits one `mqtt_error` with reason code -2. A stale chain changes nothing. |
| `MqttHelper.MqttHelper.ResubscribeAll` | android/src/main/java/com/dream11/mqtt/MqttHelper.kt:173-178 | The replay runs on the helper's own registry, chain log and disposed set. |
| `MqttHelper.MqttHelper.OnConnected` | android/src/main/java/com/dream11/mqtt/MqttHelper.kt:82-89 | The connected listener clears the manual-disconnect flag and emits `connected` with reason code 0. |
| `MqttHelper.MqttHelper.OnDisconnected` | android/src/main/java/com/dream11/mqtt/MqttHelper.kt:56-80 | The disconnected listener emits `disconnected` with the reason code of `DisconnectReasonCode` and the cause's message. |
| `MqttHelper.MqttHelper.DisconnectMqtt` | android/src/main/java/com/dream11/mqtt/MqttHelper.kt:202-220 | Sets the flag and disposes and clears a pending attempt. It starts a disconnect chain unless the client is DISCONNECTED. |
| `MqttHelper.MqttHelper.DisconnectFailed` | android/src/main/java/com/dream11/mqtt/MqttHelper.kt:227-243 | A failed disconnect emits `disconnected` with reason code -3. |
| `MqttHelper.MqttHelper.SubscribeMqtt` | android/src/main/java/com/dream11/mqtt/MqttHelper.kt:253-307 | Starts one subscribe chain with the fallback QoS and stores it under `(topic, eventId)` with the requested code, as `Subscribe` states. The invariant is kept. |
| `MqttHelper.MqttHelper.SubscribeAcked` | android/src/main/java/com/dream11/mqtt/MqttHelper.kt:258-268 | A live subscribe chain's acknowledgement emits `subscribe_success` with the fallback QoS code. |
| `MqttHelper.MqttHelper.PublishReceived` | android/src/main/java/com/dream11/mqtt/MqttHelper.kt:269-277 | A message on a live subscribe chain emits `subscription_event` for that chain's event id. |
| `MqttHelper.MqttHelper.SubscribeFailed` | android/src/main/java/com/dream11/mqtt/MqttHelper.kt:278-294 | A subscribe error emits `subscribe_failed` with reason code -4, exactly when the flag is clear. |
| `MqttHelper.MqttHelper.UnsubscribeMqtt` | android/src/main/java/com/dream11/mqtt/MqttHelper.kt:309-348 | Applies the rule as written (`Unsubscribe`). The registry, disposed chains and chain log are exactly its result. The pair is gone afterwards. The id's chain is disposed exactly when the id was present. An unsubscribe chain starts exactly when the topic had at most one subscriber. The invariant is kept. |
| `MqttHelper.MqttHelper.UnsubscribeFailed` | android/src/main/java/com/dream11/mqtt/MqttHelper.kt:326-338 | A failed unsubscribe emits `mqtt_error` with the topic and reason code -5. |

## Left out

- The WebSocket library (Starscream), the MQTT library (HiveMQ) and RxJava are not modelled. They are replaced by logs of the calls made on them. The library callbacks become methods that take the handle of the chain they belong to. The client state becomes a field set through `SetState`.
- Dispatch queues, `async` hand-offs and weak `self` captures are not modelled. Every operation is one sequential step. In the source, a binary frame's append and the pass over the queue are two blocks on the serial buffer queue, so a `readData` can run between them. The model runs them back to back. `ReadData` keeps the conservation invariant in any order of calls.
- Delegate notifications go to a log in the order they are made. The caller supplies the delegate queue through `setDelegate`; the model assumes that queue is serial, so it keeps that order. With no queue the source calls the delegate inline, which also keeps it.
- `CocoaWebSocket.CocoaMQTTWebSocket.Connect`: URL parsing is a parameter (`urlParses`). The model builds only the address string.
- `WebSocketUrl.RequestHeaders`: header names are compared exactly. `URLRequest` compares them without regard to case.
- Read and connect timeouts are accepted by the source and never used. The model drops them. The write completion is reported at once.
- The client builder in the helper's `init` block is library configuration and is not modelled: identifier, host, port, WebSocket path, TLS, and the `client_initialize` or initialization-error event. Its two listeners are modelled as `OnConnected` and `OnDisconnected`.
- `MqttHelper.MqttHelper.OnDisconnected`: a cause with no message gives "Unknown error". The catch branch for a message that cannot be read is not modelled.
- `MqttHelper.MqttHelper.PublishReceived`: the payload is taken as already-decoded text. Byte-to-string decoding is not modelled.
- `MqttHelper.MqttHelper.Connect`: the connect options (keep-alive, clean start, username, password) are only passed to the library and are carried unchanged in the chain log.
- The handlers that only log are not modelled: the unsubscribe `doOnSuccess`, the disconnect `doOnComplete`, and the `subscribe` error handlers other than the connect chain's.
- The order of Kotlin `HashMap` iteration is not modelled. The replay is proved for every visit order.
- Reconnect backoff and jitter and retry budgets belong to the TypeScript client, which is not part of this model. The native helper never enables the MQTT library's automatic reconnect.
- The per-client registry of helpers (`MqttManager`, native code that the bridge calls by client id) is not part of this model.
- The bridge layers (`MqttModuleImpl.kt`, `Mqtt.swift`), the example application and the TypeScript tests are not part of this model.

## Findings

| source | as written | input that shows it | evidently intended | confidence | as-written member | corrected member |
|---|---|---|---|---|---|---|
| android/src/main/java/com/dream11/mqtt/MqttHelper.kt:315-346 | An event id that the topic does not have still takes the "at most one subscriber" branch. That branch drops the topic's remaining subscriber and unsubscribes the topic at the broker. The dropped subscriber loses its registry entry, but its Rx chain is never disposed. | `a` and `b` subscribe to `t`, then `unsubscribeMqtt(a, t)` is called twice. The second call removes `b` and unsubscribes `t`. | Removing an id the topic does not have changes nothing, so unsubscribe is idempotent. | medium, not executed | `SubscriptionRegistry.UnsubscribeNotIdempotent` | `SubscriptionRegistry.UnsubscribeIntendedRemovesOnlyPair` |
