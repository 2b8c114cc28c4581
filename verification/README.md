# libdyson-mqtt, modelled in Dafny

libdyson-mqtt is a thin wrapper around an MQTT client library, used to talk
to Dyson appliances. It validates the connection settings (`ConnectionConfig`)
and forwards connect, subscribe, publish and disconnect calls to the
transport library. It tracks the connection state (`ConnectionStatus`) from
the transport's connect and disconnect events. Incoming messages
(`MqttMessage`) go into a bounded queue with drop-oldest overflow, and can
also be handed to a user callback.

This project models that logic as pure functions over immutable values.

- `Base` (base.dfy) holds `Option`, `Result`, `Outcome`, bytes, timestamps and string prefixes.
- `Decimal` (decimal.dfy) renders a result code in decimal and parses it back.
- `Config` (config.dfy) validates the settings. It checks host, username, password, topics, port and keepalive, in that order.
- `Messages` (messages.dfy) covers message construction, `payload_str` and `to_dict`.
- `Status` (status.dfy) covers the status record and its transitions on connect attempts, CONNACK return codes (section 3.2.2.3 of MQTT Version 3.1.1) and disconnect codes.
- `Intake` (intake.dfy) is the bounded arrival queue, generic in its element type.
- `Client` (client.dfy) models the `DysonMqttClient` facade.

The transport is represented only as the trace of calls the client makes into
it. What each transport call did (returned a result code or raised) is a
parameter of the operation. So is what each user callback did (returned or
raised). Every callback invocation and every suppressed, logged error an event
handler produces is listed, in order, in the handler's notices.

The library's implementation modules are not part of this model. Its
behaviour is taken from the assertions of its test suite, which is what the
source cells below cite. The order in which validation tests the fields, the CONNACK texts for
codes other than 5, and the wording of messages beyond the phrases the tests look for
are choices. Where a test only requires a phrase to occur in an error text,
the model puts it at the start of the text; that placement is also a choice. They are consistent with the tests but not pinned by them.

## Model

| member | source | states |
|---|---|---|
| Config.Validate | tests/unit/test_models.py:13-80 | A configuration is accepted exactly when host, username and password are non-empty, the topic list is non-empty, 1 ≤ port ≤ 65535 and keepalive > 0. An accepted configuration reads back every field unchanged. A rejection carries the message of a violated field, and no field tested earlier is violated. |
| Config.ErrorMessageInjective | tests/unit/test_models.py:31-80 | The six validation messages are pairwise distinct, so a rejection identifies its field. |
| Config.SingleViolationReported | tests/unit/test_models.py:31-80 | Settings that break exactly one constraint are rejected with that field's own message (for example "Host cannot be empty" or "Keepalive must be positive"). |
| Config.DefaultSettings | tests/unit/test_models.py:31-49 | Settings built without a port, keepalive or client id keep the four given fields, and get a port within 1..65535 and a positive keepalive. |
| Config.DefaultsAccepted | tests/unit/test_models.py:31-49 | With the default port and keepalive, validation accepts exactly when host, username, password and topic list are all non-empty. A rejection names one of those four fields, never the port or the keepalive. |
| Config.PortRange | tests/unit/test_models.py:51-69 | When the earlier fields are valid, the port message is given exactly when port < 1 or port > 65535. So 0 and 65536 are both refused. |
| Messages.NewMessage | tests/unit/test_models.py:86-106 | A message keeps its topic, payload, qos and retain flag. A supplied timestamp is kept; an omitted one becomes the construction time. |
| Messages.FromInbound | tests/integration/test_client_integration.py:78-91 | The message built for a transport arrival has the arrival's topic, payload, qos and retain flag, and carries the arrival time. |
| Messages.PayloadText | tests/unit/test_models.py:114-120 | Decoding a payload to text is total: every byte sequence, invalid UTF-8 included, yields a string. Every ASCII byte decodes to the character with the same code. The remaining clauses (one character per byte, the replacement character at every non-ASCII byte) describe this model's simplified decoder, not Python's; see "Left out". |
| Messages.PayloadTextOfAscii | tests/unit/test_models.py:108-112 | Encoding ASCII text as bytes and decoding the payload gives the same text back. |
| Messages.ToRecord | tests/unit/test_models.py:138-147 | The exported record carries topic, qos, retain and timestamp unchanged, with the payload as decoded text. |
| Messages.ArrivalRecord | tests/unit/test_models.py:122-136 | For an arrival whose payload is encoded ASCII text, the exported record is exactly (topic, that text, qos, retain, arrival time). |
| Decimal.NatToString | tests/unit/test_client_coverage.py:106-111 | A code is rendered as a non-empty string of decimal digits, and has two or more digits exactly when it is 10 or more. It starts with 0 exactly when the code is 0, so there is never a leading zero; with ParseNatToString it is the canonical decimal form, as Python prints it. |
| Decimal.ParseNatToString | tests/unit/test_client_coverage.py:106-111 | Parsing the rendered digits gives the code back. |
| Decimal.IntToString | tests/unit/test_client_coverage.py:106-111 | The rendering of a code is non-empty and starts with a minus sign exactly when the code is negative. No zero follows the minus sign, and a non-negative rendering of two or more digits does not start with 0. So, with ParseIntToString, it is the canonical decimal form of `f"{code}"`. |
| Decimal.ParseIntToString | tests/unit/test_client_coverage.py:106-111 | Parsing a rendered integer gives it back. |
| Decimal.IntToStringInjective | tests/unit/test_client_coverage.py:106-111 | Distinct codes render as distinct strings. |
| Status.NewStatus | tests/unit/test_models.py:153-161 | A fresh status has the given connected flag, zero connection attempts, and no connect time, disconnect time or error. |
| Status.AttemptConnect | tests/unit/test_client_coverage.py:186-198 | An attempt adds one to connection_attempts and changes nothing else. |
| Status.ConnectResult | tests/unit/test_client_coverage.py:15-46 | After a connect event the client is connected exactly when the code is 0. On acceptance the connect time is the event time and the error is cleared. On refusal the error is the refusal message and the connect time is kept. The disconnect time and the attempt count are untouched, and the result is always coherent. |
| Status.DisconnectError | tests/unit/test_client_coverage.py:92-111 | A disconnect leaves no error exactly when its code is 0. Otherwise the error is "Unexpected disconnection: " followed by the canonical decimal rendering of the code (IntToString), which parses back to the code. |
| Status.Disconnected | tests/unit/test_client_coverage.py:92-111 | After a disconnect event the client is not connected, the disconnect time is the event time and the error is the disconnect error. The connect time and the attempt count are untouched. |
| Status.RefusalsDistinguished | tests/integration/test_client_integration.py:151-160 | Every refusal message contains "Failed to connect". Refusals with different reasons give different messages. |
| Status.DisconnectErrorInjective | tests/unit/test_client_coverage.py:92-111 | Different disconnect codes leave different errors. |
| Status.NotAuthorisedReason | tests/unit/test_client_coverage.py:42-46 | The transport's reason text for code 5 is exactly "Connection Refused: not authorised." |
| Status.NotAuthorisedMessage | tests/unit/test_client_coverage.py:42-46 | Refusal code 5 gives exactly "Failed to connect to MQTT broker: Connection Refused: not authorised." |
| Status.UnexpectedDisconnectOne | tests/unit/test_client_coverage.py:106-111 | Disconnect code 1 gives exactly "Unexpected disconnection: 1". |
| Intake.Enqueue | tests/integration/test_client_integration.py:162-192 | After an arrival the queue holds min(old length + 1, bound) entries. They are a suffix of the old queue followed by the arrival, and the arrival is the last entry whenever the bound is positive. |
| Intake.EnqueueByEviction | tests/integration/test_client_integration.py:162-192 | Appending and then dropping the oldest entry while the queue is over its bound yields exactly `Enqueue`. |
| Intake.Feed | tests/integration/test_client_integration.py:162-192 | After a run of arrivals the queue is within its bound, provided it was within the bound before or the run is non-empty. |
| Intake.Drain | tests/integration/test_client_integration.py:101-133 | Draining returns the buffered entries and leaves an empty buffer. |
| Intake.FeedKeepsNewest | tests/integration/test_client_integration.py:162-192 | Starting from a queue within its bound, any run of arrivals leaves exactly the newest `bound` entries of the old contents followed by the arrivals. |
| Intake.ArrivalsFromEmpty | tests/integration/test_client_integration.py:162-192 | From an empty queue, n arrivals leave exactly the last min(n, bound) of them in arrival order, never more than the bound. |
| Intake.DrainAfterArrivals | tests/integration/test_client_integration.py:101-133 | Draining right after n ≤ bound arrivals returns exactly those arrivals in order. A second drain returns nothing. |
| Intake.OverflowKeepsLastFive | tests/integration/test_client_integration.py:162-192 | With bound 5, ten arrivals leave exactly arrivals 5..9. |
| Client.IsConnected | tests/integration/test_client_integration.py:67-74 | is_connected() is the connected flag of the status that get_status() returns. |
| Client.GetStatus | tests/integration/test_client_integration.py:151-160 | get_status() returns the client's current status and changes nothing, and that status is coherent whenever the client invariant holds. |
| Client.NewClient | tests/unit/test_client.py:14-19 | A new client is not connected and keeps its configuration. Its status is a fresh one (zero attempts, no connect or disconnect time, no error), its queue bound is the default, and it has an empty queue, no transport calls and no callbacks, and it satisfies the client invariant. |
| Client.SetMessageCallback | tests/unit/test_client.py:45-61 | The message callback becomes the given one (None clears it), and nothing else changes. |
| Client.SetConnectionCallback | tests/unit/test_client.py:63-74 | The connection callback becomes the given one (None clears it), and nothing else changes. |
| Client.NotifyConnection | tests/unit/test_client_coverage.py:48-65 | Without a connection callback there are no notices. With one, the first notice is its invocation with the reported pair. That is the only notice when the callback returns; when it raises, the second and last notice is the logged error. |
| Client.Connect | tests/unit/test_client_coverage.py:186-198 | connect() counts one attempt, then sets the credentials on the transport and requests an asynchronous connect to host, port and keepalive. It fails exactly when the transport raises, with a ConnectionError whose text contains "Failed to initiate connection" (placed at the start, a modelling choice). The attempt counts either way, and the client invariant is kept. |
| Client.Disconnect | tests/unit/test_client_coverage.py:200-214 | disconnect() makes one transport disconnect call and changes nothing else. It fails exactly when the transport raises, with a CleanupError whose text contains "Error during disconnect" (placed at the start, a modelling choice). |
| Client.PublishMessage | tests/unit/test_client_coverage.py:216-246 | While not connected, publish fails with the not-connected error and the client is unchanged. Otherwise it makes one publish call with QoS 2 and retain false, and succeeds exactly when the transport returns the success code. A non-success code gives a rejected TopicError; a raised exception gives a faulted TopicError. |
| Client.PublishErrorsDistinguished | tests/unit/test_client_coverage.py:216-246 | A rejected publish's text contains "Failed to publish to topic" and a faulted one's contains "Error publishing to topic". The model places each phrase at the start, a choice the tests allow, so neither text starts with the other's phrase. |
| Client.SubscribeCalls | tests/integration/test_client_integration.py:74-76 | There is one subscribe call per configured topic, in the configured order. |
| Client.SubscribeFailures | tests/unit/test_client_coverage.py:148-184 | Every configured entry whose subscribe returned a non-success code or raised is logged as a subscribe failure naming that topic, and every logged failure names a configured topic whose subscribe failed. There are at most as many errors as configured entries, and none exactly when every subscribe succeeded. |
| Client.SubscribeFailuresAppend | tests/unit/test_client_coverage.py:148-184 | The failures for a topic list split in two are the failures of the first part followed by those of the second. Together with SubscribeFailuresOne this gives one error per failing configured entry, in configured order. |
| Client.SubscribeFailuresOne | tests/unit/test_client_coverage.py:148-184 | A single topic is logged as a subscribe failure exactly when its subscribe failed. |
| Client.SubscribeToTopics | tests/unit/test_client_coverage.py:134-184 | While not connected, no subscribe call is made and nothing changes. Otherwise the subscribe calls for all topics are appended to the trace, and the notices are exactly the subscribe failures of the configured topics. |
| Client.OnConnect | tests/unit/test_client_coverage.py:15-65 | The status follows the connect result, and the client is connected exactly when the code is 0. Acceptance appends one subscribe call per topic; a refusal makes no transport call. On acceptance the notices are the subscribe failures followed by the report (true, None) to the connection callback. On refusal they are only the report (false, refusal message). The callback, when set, is invoked exactly once, and an exception it raises is the last thing logged. Nothing else changes, and the invariant is kept. |
| Client.OnDisconnect | tests/unit/test_client_coverage.py:92-132 | The client becomes disconnected, and the connection callback, when set, receives (false, disconnect error) exactly once. An exception it raises is the last thing logged. Nothing else changes, and the invariant is kept. |
| Client.OnMessage | tests/integration/test_client_integration.py:78-91 | A built message is queued with drop-oldest eviction. When a message callback is set, the message is handed to it exactly once, followed by the logged error if the callback raised. Without a callback there are no notices. A message that cannot be built is only logged. No connection notice is produced, and the invariant is kept. |
| Client.MalformedArrivalDropped | tests/unit/test_client_coverage.py:248-266 | A message that cannot be built is logged as "Error processing message: …". Nothing else happens. |
| Client.GetMessages | tests/unit/test_client.py:38-43 | get_messages() returns the queue in arrival order and leaves it empty, with nothing else changed. |
| Client.Scoped | tests/unit/test_client.py:21-29 | Entering the scope connects; if that fails, the connect failure is the whole result. Otherwise the body runs and exactly one disconnect call is appended after the body's calls. Leaving the scope changes nothing but that one call: the client is the one the body left, with the disconnect appended to its trace, so it stays valid if the body kept it valid. The result is the body's outcome unless the disconnect raised, in which case it is the CleanupError. |
| Client.ReceiveAll | tests/integration/test_client_integration.py:111-118 | A run of arrivals changes only the queue. |
| Client.ReceiveAllFeedsQueue | tests/integration/test_client_integration.py:111-129 | A run of arrivals leaves in the client's queue exactly what the intake queue's Feed gives. |
| Client.ArrivalsQueuedFromEmpty | tests/integration/test_client_integration.py:162-192 | Arrivals into a client with an empty queue leave exactly the newest min(n, bound) of them queued, in arrival order. |
| Client.DrainReturnsNewestArrivals | tests/integration/test_client_integration.py:101-133 | After arrivals into an empty queue, get_messages() returns the newest min(n, bound) of them in arrival order, and all of them when they fit. A second get_messages() returns nothing. |
| Client.OverflowDrainsLastFive | tests/integration/test_client_integration.py:162-192 | With a queue bound of 5 and ten arrivals, get_messages() returns exactly arrivals 5..9. |
| Client.AcceptedConnectSubscribesEachTopic | tests/integration/test_client_integration.py:61-76 | A fresh client that connects and receives code 0 is connected with one attempt. Its transport calls are exactly credentials, connect, then one subscribe per topic. |
| Client.NotAuthorisedRefusal | tests/unit/test_client_coverage.py:31-46 | After refusal code 5 the client is disconnected and last_error is the "not authorised" message, which contains "Failed to connect". The connection callback receives exactly (false, that message), once. |
| Client.ConnectionCallbackFailureIsolated | tests/unit/test_client_coverage.py:48-132 | When the connection callback raises on a connect or disconnect event, the client ends in the same state as when it returns. The error is the last thing logged, as "Error in connection callback: …". |
| Client.MessageCallbackFailureIsolated | tests/unit/test_client_coverage.py:67-90 | When the message callback raises, the message is still queued as if it had returned. The notices are the delivery followed by "Error in message callback: …". |
| Client.ArrivalDelivered | tests/integration/test_client_integration.py:78-91 | A transport arrival reaches the message callback with topic and payload unchanged, and is the newest entry of the queue. |
| Client.CallbacksGovernDelivery | tests/unit/test_client.py:45-74 | After setting callbacks, a message is delivered exactly when a message callback is set. A connect result is reported exactly once when a connection callback is set, and not at all otherwise. |
| Client.PublishBeforeConnectRefused | tests/unit/test_client.py:31-36 | Publishing on a fresh client fails as not connected and makes no transport call. |
| Client.PublishForwardsAsGiven | tests/unit/test_client_coverage.py:308-325 | A successful publish passes the topic and the payload (bytes or text) to the transport unchanged, with QoS 2 and retain false. |

## Left out

- The MQTT transport library itself is not modelled: TCP/TLS, packet framing, QoS handshakes, keepalive pings, `connect_async` and registering the event handlers. The trace records the credential, connect, subscribe, publish and disconnect calls. It does not record the registration of the event handlers or the starting and stopping of the transport's network loop; examples/basic_usage.py:57-62 relies on that loop to deliver the connect event while the caller sleeps.
- Locking and the transport's background thread are not modelled. Every operation is sequential, so the mutual exclusion around the status and queue is not modelled either.
- The log-only handlers `_on_subscribe`, `_on_publish` and `_on_log` are left out. They change no state and produce only debug or warning log lines.
- Log and error wording is modelled only up to what the tests assert. The tests only require the phrases "Failed to initiate connection", "Error during disconnect", "Failed to publish to topic" and "Error publishing to topic" to occur somewhere in the ConnectionError, CleanupError and TopicError texts (a regular-expression search). The `StartsWith` clauses of Client.Connect, Client.Disconnect and Client.PublishErrorsDistinguished place each phrase at the start, which is a modelling choice, and the not-connected text and the subscribe-failure log text are placeholders.
- Timestamps are opaque integers. Their ISO-8601 rendering in `to_dict` is not modelled, and `ConnectionStatus.to_dict` is left out because it only renders fields the model already holds.
- Messages.PayloadText: does not follow Python's UTF-8 decoding with replacement. ASCII bytes decode to themselves, and every byte ≥ 0x80 becomes U+FFFD, even inside a valid multi-byte sequence. The only properties claimed are totality and ASCII round-tripping.
- Status.ConnackText: only the text for code 5 is pinned by a test. The texts for codes 1–4 and for unknown codes follow the transport library's wording and are not relied on beyond being distinct.
- The subscribe QoS and the client id handed to the transport's constructor are not modelled. A subscribe call records only its topic.
- Each topic's subscribe is taken to succeed or fail on its own: a failure on one topic is logged and the remaining topics are still subscribed. The tests only require that at least one error is logged.
- Client.SubscribeFailures: the reply to a subscribe is a function of the topic, so two configured entries with the same topic get the same reply. A transport that answers a duplicated topic differently the second time is not modelled.
- Client.OnConnect: on acceptance the topics are subscribed before the connection callback is invoked. test_client_coverage.py:48-65 requires this order, because there the callback error must be the last error logged even though every subscribe fails.
- disconnect() is taken not to change the status itself. The transport's disconnect event updates it.
- The default queue bound of 1000 (`Intake.DefaultMaxQueueSize`) is a modelling choice, not pinned by a test. The tests set the bound directly on the client (`_max_queue_size = 5`); the model does the same by building a `Client` value with that bound.
- The tests set `_status.connected = True` directly on the client. The model does not treat this as an operation; lemmas that need a connected client take it as a requirement.
- The example scripts (examples/demo.py, examples/basic_usage.py) and the exception-class tests are left out. The scripts are interactive I/O with sleeps, and the tests only construct exception objects.
