/**
 The client facade (`DysonMqttClient`). It owns one validated
 configuration, one connection status, one intake queue and the two user
 callbacks, and talks to the MQTT transport library.

 The transport is modelled as the trace of calls made into it; what each
 call did (returned a code or raised) is a parameter of the operation.
 A user callback is an opaque handle; what an invocation did (completed or
 raised) is likewise a parameter, and every invocation and every logged
 error of an operation is listed in its notices, in order.
 */
module Client {
  import opened Base
  import opened Config
  import opened Messages
  import opened Status
  import Intake

  /** A user-supplied callback, known only by its identity. */
  datatype Callback = Callback(id: nat)

  /** What an invoked user callback did. */
  datatype CallbackOutcome = Completed | Threw(detail: string)

  /** What a call into the transport did: returned a result code, or raised. */
  datatype Reply = Returned(code: int) | Raised(detail: string)

  /** The transport's success result code for publish and subscribe. */
  const MqttErrSuccess := 0

  /** Publishes are sent "exactly once" and are never retained. */
  const PublishQos := 2
  const PublishRetain := false

  /** A publish payload, text or raw bytes, forwarded as given. */
  datatype Payload = Text(text: string) | Bytes(data: seq<byte>)

  /** One call made into the transport library. */
  datatype TransportCall =
    | SetCredentials(username: string, password: string)
    | ConnectAsync(host: string, port: int, keepalive: int)
    | Subscribe(topic: string)
    | Publish(topic: string, payload: Payload, qos: int, retain: bool)
    | Disconnect

  datatype CallbackKind = ConnectionCallback | MessageCallback

  /** An error the client logs and suppresses. */
  datatype LogEntry =
    | CallbackFailed(kind: CallbackKind, detail: string)
    | ProcessingFailed(detail: string)
    | SubscribeFailed(topic: string)

  function LogText(e: LogEntry): string
  {
    match e
    case CallbackFailed(ConnectionCallback, d) => "Error in connection callback: " + d
    case CallbackFailed(MessageCallback, d) => "Error in message callback: " + d
    case ProcessingFailed(d) => "Error processing message: " + d
    case SubscribeFailed(t) => "Failed to subscribe to topic " + t
  }

  /** What an event handler does besides changing the client: invoke a user
      callback, or log a suppressed error. */
  datatype Notice =
    | ConnectionNotified(connected: bool, error: Option<string>)
    | MessageNotified(message: Message)
    | ErrorLogged(entry: LogEntry)

  /** Why a publish failed: the transport returned a non-success code, or
      the call raised. */
  datatype PublishCause = Rejected(code: int) | Faulted(detail: string)

  /** The errors the client's own methods raise to their caller. */
  datatype ClientError =
    | ClientNotConnected
    | ConnectionError(detail: string)
    | CleanupError(detail: string)
    | TopicError(topic: string, cause: PublishCause)

  const InitiateFailurePrefix := "Failed to initiate connection"
  const CleanupFailurePrefix := "Error during disconnect"
  const PublishRejectedPrefix := "Failed to publish to topic"
  const PublishFaultedPrefix := "Error publishing to topic"

  function ErrorText(e: ClientError): string
  {
    match e
    case ClientNotConnected => "Client is not connected"
    case ConnectionError(d) => InitiateFailurePrefix + ": " + d
    case CleanupError(d) => CleanupFailurePrefix + ": " + d
    case TopicError(t, Rejected(rc)) => PublishRejectedPrefix + " " + t
    case TopicError(t, Faulted(d)) => PublishFaultedPrefix + " " + t + ": " + d
  }

  datatype Client = Client(
    config: ConnectionConfig,
    status: ConnectionStatus,
    queue: seq<Message>,
    maxQueueSize: nat,
    messageCallback: Option<Callback>,
    connectionCallback: Option<Callback>,
    trace: seq<TransportCall>)

  /** The result of an event handler. */
  datatype Step = Step(client: Client, notices: seq<Notice>)

  /** The result of a caller-invoked method that may raise. */
  datatype Call = Call(client: Client, result: Outcome<ClientError>)

  /** The result of `get_messages()`. */
  datatype Drained = Drained(messages: seq<Message>, client: Client)

  /** What every operation keeps true: the queue is within its bound and the
      status is one the handlers can produce. */
  predicate Valid(c: Client)
  {
    |c.queue| <= c.maxQueueSize && Coherent(c.status)
  }

  function NewClient(config: ConnectionConfig): (c: Client)
    ensures !IsConnected(c) && c.config == config
    ensures c.queue == [] && c.trace == []
    ensures c.messageCallback.None? && c.connectionCallback.None?
    ensures c.status == NewStatus(false) && c.maxQueueSize == Intake.DefaultMaxQueueSize
    ensures Valid(c)
  {
    Client(config, NewStatus(false), [], Intake.DefaultMaxQueueSize, None, None, [])
  }

  /** `is_connected()`: the connected flag of the current status. */
  function IsConnected(c: Client): (r: bool)
    ensures r <==> GetStatus(c).connected
  {
    c.status.connected
  }

  /** `get_status()`: a snapshot of the status; being a value it cannot alias
      the client's, and reading it changes nothing. */
  function GetStatus(c: Client): (r: ConnectionStatus)
    ensures r == c.status
    ensures Valid(c) ==> Coherent(r)
  {
    c.status
  }

  function SetMessageCallback(c: Client, cb: Option<Callback>): (r: Client)
    ensures r.messageCallback == cb
    ensures r == c.(messageCallback := cb)
  {
    c.(messageCallback := cb)
  }

  function SetConnectionCallback(c: Client, cb: Option<Callback>): (r: Client)
    ensures r.connectionCallback == cb
    ensures r == c.(connectionCallback := cb)
  {
    c.(connectionCallback := cb)
  }

  /** The connection-callback invocations among some notices, in order. */
  function ConnectionNotices(ns: seq<Notice>): (r: seq<Notice>)
    ensures forall i :: 0 <= i < |r| ==> r[i].ConnectionNotified?
    decreases |ns|
  {
    if |ns| == 0 then []
    else (if ns[0].ConnectionNotified? then [ns[0]] else []) + ConnectionNotices(ns[1..])
  }

  lemma {:induction false} ConnectionNoticesAppend(a: seq<Notice>, b: seq<Notice>)
    ensures ConnectionNotices(a + b) == ConnectionNotices(a) + ConnectionNotices(b)
    decreases |a|
  {
    if |a| == 0 {
      assert a + b == b;
    } else {
      var head := if a[0].ConnectionNotified? then [a[0]] else [];
      assert (a + b)[0] == a[0];
      assert (a + b)[1..] == a[1..] + b;
      ConnectionNoticesAppend(a[1..], b);
      calc {
        ConnectionNotices(a + b);
        head + ConnectionNotices(a[1..] + b);
        head + (ConnectionNotices(a[1..]) + ConnectionNotices(b));
        (head + ConnectionNotices(a[1..])) + ConnectionNotices(b);
        ConnectionNotices(a) + ConnectionNotices(b);
      }
    }
  }

  lemma {:induction false} ConnectionNoticesOfLogs(ns: seq<Notice>)
    requires forall i :: 0 <= i < |ns| ==> ns[i].ErrorLogged?
    ensures ConnectionNotices(ns) == []
    decreases |ns|
  {
    if |ns| > 0 {
      ConnectionNoticesOfLogs(ns[1..]);
    }
  }

  /** Invoking the connection callback (when one is set) with `report`; an
      exception it raises is logged and goes no further. */
  function NotifyConnection(cb: Option<Callback>, report: (bool, Option<string>),
                            outcome: CallbackOutcome): (r: seq<Notice>)
    ensures ConnectionNotices(r) == if cb.Some? then [ConnectionNotified(report.0, report.1)] else []
    ensures cb.None? ==> r == []
    ensures cb.Some? ==> |r| == (if outcome.Threw? then 2 else 1) && r[0] == ConnectionNotified(report.0, report.1)
    ensures cb.Some? && outcome.Threw? ==> r[|r| - 1] == ErrorLogged(CallbackFailed(ConnectionCallback, outcome.detail))
  {
    if cb.None? then []
    else
      var logs := if outcome.Threw? then [ErrorLogged(CallbackFailed(ConnectionCallback, outcome.detail))] else [];
      ConnectionNoticesOfLogs(logs);
      ConnectionNoticesAppend([ConnectionNotified(report.0, report.1)], logs);
      [ConnectionNotified(report.0, report.1)] + logs
  }

  /** `connect()`: count the attempt, hand the credentials to the transport
      and request an asynchronous connect; a transport that raises surfaces
      as a `ConnectionError`, and the attempt still counts. */
  function Connect(c: Client, reply: Reply): (r: Call)
    ensures r.client.status == AttemptConnect(c.status)
    ensures r.client.trace == c.trace + [SetCredentials(c.config.username, c.config.password),
                                         ConnectAsync(c.config.host, c.config.port, c.config.keepalive)]
    ensures r.result.Fail? <==> reply.Raised?
    ensures reply.Raised? ==> r.result.error == ConnectionError(reply.detail)
    ensures reply.Raised? ==> StartsWith(ErrorText(r.result.error), InitiateFailurePrefix)
    ensures r.client == c.(status := r.client.status, trace := r.client.trace)
    ensures Valid(c) ==> Valid(r.client)
  {
    var c' := c.(status := AttemptConnect(c.status),
                 trace := c.trace + [SetCredentials(c.config.username, c.config.password),
                                     ConnectAsync(c.config.host, c.config.port, c.config.keepalive)]);
    match reply
    case Returned(_) => Call(c', Pass)
    case Raised(d) =>
      assert (InitiateFailurePrefix + ": " + d)[..|InitiateFailurePrefix|] == InitiateFailurePrefix;
      Call(c', Fail(ConnectionError(d)))
  }

  /** `disconnect()`: request disconnection; a transport that raises surfaces
      as a `CleanupError`. The status is left to the disconnect event. */
  function Disconnect(c: Client, reply: Reply): (r: Call)
    ensures r.client == c.(trace := c.trace + [TransportCall.Disconnect])
    ensures r.result.Fail? <==> reply.Raised?
    ensures reply.Raised? ==> r.result.error == CleanupError(reply.detail)
    ensures reply.Raised? ==> StartsWith(ErrorText(r.result.error), CleanupFailurePrefix)
    ensures Valid(c) ==> Valid(r.client)
  {
    var c' := c.(trace := c.trace + [TransportCall.Disconnect]);
    match reply
    case Returned(_) => Call(c', Pass)
    case Raised(d) =>
      assert (CleanupFailurePrefix + ": " + d)[..|CleanupFailurePrefix|] == CleanupFailurePrefix;
      Call(c', Fail(CleanupError(d)))
  }

  /** `publish(topic, payload)`: refused without any transport call while not
      connected; otherwise forwarded at QoS 2, not retained, and a
      non-success code or a raised exception becomes a `TopicError`. */
  function PublishMessage(c: Client, topic: string, payload: Payload, reply: Reply): (r: Call)
    ensures !IsConnected(c) ==> r == Call(c, Fail(ClientNotConnected))
    ensures IsConnected(c) ==> r.client == c.(trace := c.trace + [Publish(topic, payload, PublishQos, PublishRetain)])
    ensures IsConnected(c) ==> (r.result.Pass? <==> reply == Returned(MqttErrSuccess))
    ensures IsConnected(c) && reply.Returned? && reply.code != MqttErrSuccess ==>
      r.result == Fail(TopicError(topic, Rejected(reply.code)))
    ensures IsConnected(c) && reply.Raised? ==> r.result == Fail(TopicError(topic, Faulted(reply.detail)))
    ensures Valid(c) ==> Valid(r.client)
  {
    if !c.status.connected then Call(c, Fail(ClientNotConnected))
    else
      var c' := c.(trace := c.trace + [Publish(topic, payload, PublishQos, PublishRetain)]);
      match reply
      case Returned(rc) =>
        if rc == MqttErrSuccess then Call(c', Pass) else Call(c', Fail(TopicError(topic, Rejected(rc))))
      case Raised(d) => Call(c', Fail(TopicError(topic, Faulted(d))))
  }

  /** The two publish failures are told apart by their messages. */
  lemma PublishErrorsDistinguished(topic: string, rc: int, d: string)
    ensures StartsWith(ErrorText(TopicError(topic, Rejected(rc))), PublishRejectedPrefix)
    ensures StartsWith(ErrorText(TopicError(topic, Faulted(d))), PublishFaultedPrefix)
    ensures !StartsWith(ErrorText(TopicError(topic, Rejected(rc))), PublishFaultedPrefix)
    ensures !StartsWith(ErrorText(TopicError(topic, Faulted(d))), PublishRejectedPrefix)
  {
    var rejected := ErrorText(TopicError(topic, Rejected(rc)));
    var faulted := ErrorText(TopicError(topic, Faulted(d)));
    assert rejected[..|PublishRejectedPrefix|] == PublishRejectedPrefix;
    assert faulted[..|PublishFaultedPrefix|] == PublishFaultedPrefix;
    assert rejected[0] == 'F' && faulted[0] == 'E';
  }

  /** One subscribe call per topic, in the configured order. */
  function SubscribeCalls(topics: seq<string>): (r: seq<TransportCall>)
    ensures |r| == |topics|
    ensures forall i :: 0 <= i < |topics| ==> r[i] == Subscribe(topics[i])
    decreases |topics|
  {
    if |topics| == 0 then [] else [Subscribe(topics[0])] + SubscribeCalls(topics[1..])
  }

  /** The subscribe of `t` did not succeed: the transport returned another
      code than success, or the call raised. */
  predicate SubscribeFailedOn(t: string, reply: string -> Reply)
  {
    reply(t) != Returned(MqttErrSuccess)
  }

  /** The error logged for each subscribe that did not succeed, one per
      configured entry, in the configured order; a failure on one topic does
      not stop the others. */
  function SubscribeFailures(topics: seq<string>, reply: string -> Reply): (r: seq<Notice>)
    ensures |r| <= |topics|
    ensures forall i :: 0 <= i < |r| ==> r[i].ErrorLogged? && r[i].entry.SubscribeFailed?
    ensures forall i :: 0 <= i < |r| ==> r[i].entry.topic in topics && SubscribeFailedOn(r[i].entry.topic, reply)
    ensures forall i :: 0 <= i < |topics| && SubscribeFailedOn(topics[i], reply) ==>
      ErrorLogged(SubscribeFailed(topics[i])) in r
    ensures r == [] <==> forall i :: 0 <= i < |topics| ==> !SubscribeFailedOn(topics[i], reply)
    decreases |topics|
  {
    if |topics| == 0 then []
    else
      var rest := SubscribeFailures(topics[1..], reply);
      assert forall i :: 1 <= i < |topics| ==> topics[i] == topics[1..][i - 1];
      assert forall t :: t in topics[1..] ==> t in topics;
      if !SubscribeFailedOn(topics[0], reply) then rest
      else [ErrorLogged(SubscribeFailed(topics[0]))] + rest
  }

  /** Subscribing to a list split in two logs the failures of the first part
      and then those of the second; with the one-topic case this fixes the
      failures as exactly the failing entries, in order. */
  lemma {:induction false} SubscribeFailuresAppend(a: seq<string>, b: seq<string>, reply: string -> Reply)
    ensures SubscribeFailures(a + b, reply) == SubscribeFailures(a, reply) + SubscribeFailures(b, reply)
    decreases |a|
  {
    if |a| == 0 {
      assert a + b == b;
    } else {
      assert (a + b)[0] == a[0];
      assert (a + b)[1..] == a[1..] + b;
      SubscribeFailuresAppend(a[1..], b, reply);
    }
  }

  /** One topic: an error naming it exactly when its subscribe failed. */
  lemma SubscribeFailuresOne(t: string, reply: string -> Reply)
    ensures SubscribeFailures([t], reply)
      == if SubscribeFailedOn(t, reply) then [ErrorLogged(SubscribeFailed(t))] else []
  {
  }

  /** `_subscribe_to_topics`: nothing at all unless connected; otherwise one
      subscribe call per configured topic, failures logged. */
  function SubscribeToTopics(c: Client, reply: string -> Reply): (r: Step)
    ensures !IsConnected(c) ==> r == Step(c, [])
    ensures IsConnected(c) ==> r.client == c.(trace := c.trace + SubscribeCalls(c.config.topics))
    ensures IsConnected(c) ==> r.notices == SubscribeFailures(c.config.topics, reply)
    ensures forall i :: 0 <= i < |r.notices| ==> r.notices[i].ErrorLogged?
  {
    if !c.status.connected then Step(c, [])
    else Step(c.(trace := c.trace + SubscribeCalls(c.config.topics)), SubscribeFailures(c.config.topics, reply))
  }

  /** `_on_connect`: record the result; on acceptance subscribe to every
      configured topic; then report the result to the connection callback
      exactly once. */
  function OnConnect(c: Client, rc: int, now: Timestamp, outcome: CallbackOutcome,
                     reply: string -> Reply): (r: Step)
    ensures r.client.status == ConnectResult(c.status, rc, now)
    ensures IsConnected(r.client) <==> rc == ConnackAccepted
    ensures ConnectionNotices(r.notices)
      == if c.connectionCallback.Some? then [ConnectionNotified(r.client.status.connected, r.client.status.lastError)] else []
    ensures rc == ConnackAccepted ==> r.client.trace == c.trace + SubscribeCalls(c.config.topics)
    ensures rc != ConnackAccepted ==> r.client.trace == c.trace
    ensures rc == ConnackAccepted ==>
      r.notices == SubscribeFailures(c.config.topics, reply)
                   + NotifyConnection(c.connectionCallback, (true, None), outcome)
    ensures rc != ConnackAccepted ==>
      r.notices == NotifyConnection(c.connectionCallback, (false, Some(ConnectFailureMessage(rc))), outcome)
    ensures c.connectionCallback.Some? && outcome.Threw? ==>
      r.notices[|r.notices| - 1] == ErrorLogged(CallbackFailed(ConnectionCallback, outcome.detail))
    ensures r.client == c.(status := r.client.status, trace := r.client.trace)
    ensures Valid(c) ==> Valid(r.client)
  {
    var c' := c.(status := ConnectResult(c.status, rc, now));
    var told := NotifyConnection(c'.connectionCallback, Report(c'.status), outcome);
    if rc == ConnackAccepted then
      var sub := SubscribeToTopics(c', reply);
      ConnectionNoticesOfLogs(sub.notices);
      ConnectionNoticesAppend(sub.notices, told);
      Step(sub.client, sub.notices + told)
    else
      Step(c', told)
  }

  /** `_on_disconnect`: always disconnected; the error (none for code 0)
      and the same pair go to the connection callback. */
  function OnDisconnect(c: Client, rc: int, now: Timestamp, outcome: CallbackOutcome): (r: Step)
    ensures r.client == c.(status := Disconnected(c.status, rc, now))
    ensures !IsConnected(r.client)
    ensures ConnectionNotices(r.notices)
      == if c.connectionCallback.Some? then [ConnectionNotified(false, DisconnectError(rc))] else []
    ensures r.notices == NotifyConnection(c.connectionCallback, (false, DisconnectError(rc)), outcome)
    ensures c.connectionCallback.Some? && outcome.Threw? ==>
      r.notices[|r.notices| - 1] == ErrorLogged(CallbackFailed(ConnectionCallback, outcome.detail))
    ensures Valid(c) ==> Valid(r.client)
  {
    var c' := c.(status := Disconnected(c.status, rc, now));
    Step(c', NotifyConnection(c'.connectionCallback, Report(c'.status), outcome))
  }

  /** `_on_message`: `arrival` is the built message, or the failure to
      build it. A failure is logged and nothing else happens; otherwise the
      message callback (if set) gets the message, an exception from it is
      logged, and the message is queued regardless, oldest dropped first. */
  function OnMessage(c: Client, arrival: Result<Message, string>, outcome: CallbackOutcome): (r: Step)
    ensures arrival.Failure? ==> r == Step(c, [ErrorLogged(ProcessingFailed(arrival.error))])
    ensures arrival.Success? ==> r.client == c.(queue := Intake.Enqueue(c.queue, arrival.value, c.maxQueueSize))
    ensures arrival.Success? && c.messageCallback.Some? ==>
      r.notices == [MessageNotified(arrival.value)]
                   + (if outcome.Threw? then [ErrorLogged(CallbackFailed(MessageCallback, outcome.detail))] else [])
    ensures arrival.Success? && c.messageCallback.None? ==> r.notices == []
    ensures forall i :: 0 <= i < |r.notices| ==> !r.notices[i].ConnectionNotified?
    ensures Valid(c) ==> Valid(r.client)
  {
    match arrival
    case Failure(e) => Step(c, [ErrorLogged(ProcessingFailed(e))])
    case Success(m) =>
      var logs := if outcome.Threw? then [ErrorLogged(CallbackFailed(MessageCallback, outcome.detail))] else [];
      assert forall i :: 0 <= i < |logs| ==> logs[i].ErrorLogged?;
      var told := if c.messageCallback.None? then [] else [MessageNotified(m)] + logs;
      assert forall i :: 0 <= i < |told| ==> !told[i].ConnectionNotified?;
      var q := Intake.Enqueue(c.queue, m, c.maxQueueSize);
      assert |q| <= c.maxQueueSize;
      Step(c.(queue := q), told)
  }

  /** `get_messages()`: everything queued, in arrival order; the queue is
      left empty and nothing else changes. */
  function GetMessages(c: Client): (r: Drained)
    ensures r.messages == c.queue
    ensures r.client == c.(queue := [])
    ensures Valid(c) ==> Valid(r.client)
  {
    var (out, rest) := Intake.Drain(c.queue);
    Drained(out, c.(queue := rest))
  }

  /** The scoped-use pattern: entering connects; if that succeeded, the body
      runs and leaving disconnects exactly once, whether the body failed or
      not. A disconnect failure replaces the body's outcome. */
  function Scoped(c: Client, connectReply: Reply, body: Client -> Call, disconnectReply: Reply): (r: Call)
    ensures connectReply.Raised? ==> r == Connect(c, connectReply)
    ensures connectReply.Returned? ==>
      r.client.trace == body(Connect(c, connectReply).client).client.trace + [TransportCall.Disconnect]
    ensures connectReply.Returned? && disconnectReply.Returned? ==>
      r.result == body(Connect(c, connectReply).client).result
    ensures connectReply.Returned? && disconnectReply.Raised? ==>
      r.result == Fail(CleanupError(disconnectReply.detail))
    ensures connectReply.Returned? ==>
      var inner := body(Connect(c, connectReply).client).client;
      r.client == inner.(trace := inner.trace + [TransportCall.Disconnect])
    ensures connectReply.Returned? && Valid(body(Connect(c, connectReply).client).client) ==> Valid(r.client)
  {
    var entered := Connect(c, connectReply);
    if entered.result.Fail? then entered
    else
      var inner := body(entered.client);
      var left := Disconnect(inner.client, disconnectReply);
      Call(left.client, if left.result.Fail? then left.result else inner.result)
  }

  /** A run of successfully built arrivals, no callback raising. */
  function ReceiveAll(c: Client, ms: seq<Message>): (r: Client)
    ensures r == c.(queue := r.queue)
    decreases |ms|
  {
    if |ms| == 0 then c else ReceiveAll(OnMessage(c, Success(ms[0]), Completed).client, ms[1..])
  }

  lemma {:induction false} ReceiveAllFeedsQueue(c: Client, ms: seq<Message>)
    ensures ReceiveAll(c, ms).queue == Intake.Feed(c.queue, ms, c.maxQueueSize)
    decreases |ms|
  {
    if |ms| > 0 {
      ReceiveAllFeedsQueue(OnMessage(c, Success(ms[0]), Completed).client, ms[1..]);
    }
  }

  /** Arrivals into an empty queue leave the newest `min(n, bound)` of them
      queued, in arrival order. */
  lemma ArrivalsQueuedFromEmpty(c: Client, ms: seq<Message>)
    requires c.queue == []
    ensures ReceiveAll(c, ms).queue == Intake.Last(ms, c.maxQueueSize)
  {
    ReceiveAllFeedsQueue(c, ms);
    Intake.ArrivalsFromEmpty(ms, c.maxQueueSize);
  }

  /** Arrivals into an empty queue, then a drain: the newest
      `min(n, bound)` arrivals in arrival order (all of them when they fit),
      and a second drain returns nothing. */
  lemma DrainReturnsNewestArrivals(c: Client, ms: seq<Message>)
    requires c.queue == []
    ensures GetMessages(ReceiveAll(c, ms)).messages == Intake.Last(ms, c.maxQueueSize)
    ensures |ms| <= c.maxQueueSize ==> GetMessages(ReceiveAll(c, ms)).messages == ms
    ensures GetMessages(GetMessages(ReceiveAll(c, ms)).client).messages == []
  {
    var received := ReceiveAll(c, ms);
    ArrivalsQueuedFromEmpty(c, ms);
    var first := GetMessages(received);
    assert first.messages == Intake.Last(ms, c.maxQueueSize);
    assert first.client.queue == [];
    if |ms| <= c.maxQueueSize {
      assert Intake.Last(ms, c.maxQueueSize) == ms[0..] == ms;
    }
  }

  /** The overflow scenario: bound 5, ten arrivals, and the drain yields the
      last five. */
  lemma OverflowDrainsLastFive(c: Client, ms: seq<Message>)
    requires c.queue == [] && c.maxQueueSize == 5 && |ms| == 10
    ensures GetMessages(ReceiveAll(c, ms)).messages == ms[5..]
  {
    DrainReturnsNewestArrivals(c, ms);
  }

  /** A fresh client that connects and is accepted is connected and has made
      exactly the credential, connect and one-per-topic subscribe calls. */
  lemma AcceptedConnectSubscribesEachTopic(config: ConnectionConfig, code: int, now: Timestamp,
                                           outcome: CallbackOutcome, reply: string -> Reply)
    ensures var c := Connect(NewClient(config), Returned(code)).client;
      var s := OnConnect(c, ConnackAccepted, now, outcome, reply).client;
      && IsConnected(s)
      && s.status.connectionAttempts == 1
      && s.trace == [SetCredentials(config.username, config.password),
                     ConnectAsync(config.host, config.port, config.keepalive)]
                    + SubscribeCalls(config.topics)
      && |s.trace| == 2 + |config.topics|
  {
  }

  /** A "not authorised" refusal: the client stays disconnected, records the
      refusal text, and the connection callback gets (false, that text). */
  lemma NotAuthorisedRefusal(c: Client, now: Timestamp, outcome: CallbackOutcome, reply: string -> Reply)
    requires c.connectionCallback.Some?
    ensures var r := OnConnect(c, ConnackRefusedNotAuthorized, now, outcome, reply);
      var msg := "Failed to connect to MQTT broker: Connection Refused: not authorised.";
      && !IsConnected(r.client)
      && GetStatus(r.client).lastError == Some(msg)
      && Contains(msg, "Failed to connect")
      && ConnectionNotices(r.notices) == [ConnectionNotified(false, Some(msg))]
  {
    NotAuthorisedMessage();
    RefusalsDistinguished(ConnackRefusedNotAuthorized, ConnackRefusedNotAuthorized);
  }

  /** An exception from the connection callback changes nothing but the log:
      the client ends in the same state as if the callback had returned, and
      the error is the last thing logged, with its text. */
  lemma ConnectionCallbackFailureIsolated(c: Client, rc: int, now: Timestamp, d: string, reply: string -> Reply)
    requires c.connectionCallback.Some?
    ensures OnConnect(c, rc, now, Threw(d), reply).client == OnConnect(c, rc, now, Completed, reply).client
    ensures OnDisconnect(c, rc, now, Threw(d)).client == OnDisconnect(c, rc, now, Completed).client
    ensures var e := CallbackFailed(ConnectionCallback, d);
      var onConnect := OnConnect(c, rc, now, Threw(d), reply).notices;
      var onDisconnect := OnDisconnect(c, rc, now, Threw(d)).notices;
      && |onConnect| > 0 && onConnect[|onConnect| - 1] == ErrorLogged(e)
      && |onDisconnect| > 0 && onDisconnect[|onDisconnect| - 1] == ErrorLogged(e)
      && LogText(e) == "Error in connection callback: " + d
  {
  }

  /** An exception from the message callback is logged, and the message is
      still queued exactly as if the callback had returned. */
  lemma MessageCallbackFailureIsolated(c: Client, m: Message, d: string)
    requires c.messageCallback.Some?
    ensures OnMessage(c, Success(m), Threw(d)).client == OnMessage(c, Success(m), Completed).client
    ensures OnMessage(c, Success(m), Threw(d)).notices
      == [MessageNotified(m), ErrorLogged(CallbackFailed(MessageCallback, d))]
    ensures LogText(CallbackFailed(MessageCallback, d)) == "Error in message callback: " + d
  {
  }

  /** The transport's arrival reaches the message callback with topic and
      payload unchanged, and is the newest entry in the queue. */
  lemma ArrivalDelivered(c: Client, raw: Inbound, now: Timestamp, outcome: CallbackOutcome)
    requires c.messageCallback.Some? && c.maxQueueSize > 0
    ensures var r := OnMessage(c, Success(FromInbound(raw, now)), outcome);
      && r.notices[0].MessageNotified?
      && r.notices[0].message.topic == raw.topic
      && r.notices[0].message.payload == raw.payload
      && r.client.queue[|r.client.queue| - 1] == r.notices[0].message
  {
  }

  /** Callbacks take effect for later events: a message is handed to the
      message callback exactly when one is set, and a connect result is
      reported exactly when a connection callback is set. */
  lemma CallbacksGovernDelivery(c: Client, mcb: Option<Callback>, ccb: Option<Callback>, m: Message,
                                rc: int, now: Timestamp, outcome: CallbackOutcome, reply: string -> Reply)
    ensures MessageNotified(m) in OnMessage(SetMessageCallback(c, mcb), Success(m), outcome).notices <==> mcb.Some?
    ensures |ConnectionNotices(OnConnect(SetConnectionCallback(c, ccb), rc, now, outcome, reply).notices)|
      == if ccb.Some? then 1 else 0
  {
  }

  /** Publishing on a fresh client is refused as not connected and makes no
      transport call. */
  lemma PublishBeforeConnectRefused(config: ConnectionConfig, topic: string, payload: Payload, reply: Reply)
    ensures var r := PublishMessage(NewClient(config), topic, payload, reply);
      r.result == Fail(ClientNotConnected) && r.client.trace == []
  {
  }

  /** A successful publish hands the topic and the payload, bytes or text,
      to the transport unchanged, at QoS 2 and not retained. */
  lemma PublishForwardsAsGiven(c: Client, topic: string, payload: Payload)
    requires IsConnected(c)
    ensures var r := PublishMessage(c, topic, payload, Returned(MqttErrSuccess));
      && r.result == Pass
      && r.client.trace[|r.client.trace| - 1] == Publish(topic, payload, 2, false)
  {
  }

  /** A message that cannot be built is logged and dropped: no callback,
      no change to the queue or anything else. */
  lemma MalformedArrivalDropped(c: Client, e: string, outcome: CallbackOutcome)
    ensures var r := OnMessage(c, Failure(e), outcome);
      && r.client == c
      && r.notices == [ErrorLogged(ProcessingFailed(e))]
      && LogText(r.notices[0].entry) == "Error processing message: " + e
  {
  }
}
