/**
 The connection state tracker (`ConnectionStatus`) and its transitions on
 connect attempts, connect results (CONNACK return codes, section 3.2.2.3
 of MQTT Version 3.1.1) and disconnect events.
 */
module Status {
  import opened Base
  import Decimal

  datatype ConnectionStatus = ConnectionStatus(
    connected: bool,
    lastConnectTime: Option<Timestamp>,
    lastDisconnectTime: Option<Timestamp>,
    connectionAttempts: nat,
    lastError: Option<string>)

  /** A freshly created status: no attempts, no times, no error. */
  function NewStatus(connected: bool): (s: ConnectionStatus)
    ensures s.connected == connected && s.connectionAttempts == 0
    ensures s.lastConnectTime.None? && s.lastDisconnectTime.None? && s.lastError.None?
  {
    ConnectionStatus(connected, None, None, 0, None)
  }

  /** The states the client can reach through its own event handlers: while
      connected there is a connect time and no error. */
  predicate Coherent(s: ConnectionStatus)
  {
    s.connected ==> s.lastConnectTime.Some? && s.lastError.None?
  }

  /** The (connected, error) pair reported to the connection callback. */
  function Report(s: ConnectionStatus): (bool, Option<string>)
  {
    (s.connected, s.lastError)
  }

  /** CONNACK return codes (MQTT Version 3.1.1, Table 3.1). */
  const ConnackAccepted := 0
  const ConnackRefusedProtocolVersion := 1
  const ConnackRefusedIdentifierRejected := 2
  const ConnackRefusedServerUnavailable := 3
  const ConnackRefusedBadUsernamePassword := 4
  const ConnackRefusedNotAuthorized := 5

  /** The transport library's human-readable text for a CONNACK code. */
  function ConnackText(rc: int): string
  {
    if rc == ConnackAccepted then "Connection Accepted."
    else if rc == ConnackRefusedProtocolVersion then "Connection Refused: unacceptable protocol version."
    else if rc == ConnackRefusedIdentifierRejected then "Connection Refused: identifier rejected."
    else if rc == ConnackRefusedServerUnavailable then "Connection Refused: broker unavailable."
    else if rc == ConnackRefusedBadUsernamePassword then "Connection Refused: bad user name or password."
    else if rc == ConnackRefusedNotAuthorized then "Connection Refused: not authorised."
    else "Connection Refused: unknown reason."
  }

  const ConnectFailurePrefix := "Failed to connect to MQTT broker: "

  /** The `last_error` recorded for a refused connection. */
  function ConnectFailureMessage(rc: int): string
  {
    ConnectFailurePrefix + ConnackText(rc)
  }

  const UnexpectedDisconnectPrefix := "Unexpected disconnection: "

  /** The `last_error` a disconnect leaves: none for an expected one (code
      0), otherwise the code rendered in decimal after a fixed prefix. */
  function DisconnectError(rc: int): (e: Option<string>)
    ensures e.None? <==> rc == 0
    ensures e.Some? ==> StartsWith(e.value, UnexpectedDisconnectPrefix)
    ensures e.Some? ==> e.value[|UnexpectedDisconnectPrefix|..] == Decimal.IntToString(rc)
    ensures e.Some? ==> Decimal.ParseInt(e.value[|UnexpectedDisconnectPrefix|..]) == Some(rc)
  {
    if rc == 0 then None
    else
      var e := UnexpectedDisconnectPrefix + Decimal.IntToString(rc);
      assert e[|UnexpectedDisconnectPrefix|..] == Decimal.IntToString(rc);
      Decimal.ParseIntToString(rc);
      Some(e)
  }

  /** `connect()` counts the attempt before it talks to the transport. */
  function AttemptConnect(s: ConnectionStatus): (s': ConnectionStatus)
    ensures s'.connectionAttempts == s.connectionAttempts + 1
    ensures s' == s.(connectionAttempts := s'.connectionAttempts)
    ensures Coherent(s) ==> Coherent(s')
  {
    s.(connectionAttempts := s.connectionAttempts + 1)
  }

  /** `_on_connect`: acceptance connects and clears the error; any other
      code leaves the client disconnected with the refusal reason. */
  function ConnectResult(s: ConnectionStatus, rc: int, now: Timestamp): (s': ConnectionStatus)
    ensures s'.connected <==> rc == ConnackAccepted
    ensures s'.connected ==> s'.lastConnectTime == Some(now) && s'.lastError.None?
    ensures !s'.connected ==> s'.lastConnectTime == s.lastConnectTime
    ensures !s'.connected ==> s'.lastError == Some(ConnectFailureMessage(rc))
    ensures s'.lastDisconnectTime == s.lastDisconnectTime
    ensures s'.connectionAttempts == s.connectionAttempts
    ensures Coherent(s')
  {
    if rc == ConnackAccepted then
      s.(connected := true, lastConnectTime := Some(now), lastError := None)
    else
      s.(connected := false, lastError := Some(ConnectFailureMessage(rc)))
  }

  /** `_on_disconnect`: always disconnected, with the time of the event and
      an error only for an unexpected code. */
  function Disconnected(s: ConnectionStatus, rc: int, now: Timestamp): (s': ConnectionStatus)
    ensures !s'.connected
    ensures s'.lastDisconnectTime == Some(now)
    ensures s'.lastError == DisconnectError(rc)
    ensures s'.lastConnectTime == s.lastConnectTime
    ensures s'.connectionAttempts == s.connectionAttempts
    ensures Coherent(s')
  {
    s.(connected := false, lastDisconnectTime := Some(now), lastError := DisconnectError(rc))
  }

  /** A refusal is always reported as a failure to connect, and different
      refusal reasons give different messages. */
  lemma RefusalsDistinguished(a: int, b: int)
    requires a != ConnackAccepted && b != ConnackAccepted
    ensures Contains(ConnectFailureMessage(a), "Failed to connect")
    ensures ConnackText(a) != ConnackText(b) ==> ConnectFailureMessage(a) != ConnectFailureMessage(b)
  {
    var m := ConnectFailureMessage(a);
    assert m[..|"Failed to connect"|] == "Failed to connect";
    StartsWithContains(m, "Failed to connect");
    if ConnectFailureMessage(a) == ConnectFailureMessage(b) {
      assert ConnackText(a) == ConnectFailureMessage(a)[|ConnectFailurePrefix|..];
      assert ConnackText(b) == ConnectFailureMessage(b)[|ConnectFailurePrefix|..];
    }
  }

  /** Different unexpected disconnect codes leave different errors. */
  lemma DisconnectErrorInjective(a: int, b: int)
    ensures DisconnectError(a) == DisconnectError(b) ==> a == b
  {
  }

  /** The transport's reason text for code 5. */
  lemma NotAuthorisedReason()
    ensures ConnackText(ConnackRefusedNotAuthorized) == "Connection Refused: not authorised."
  {
  }

  /** The refusal prefix followed by the code-5 reason, spelled out. */
  lemma NotAuthorisedJoin()
    ensures ConnectFailurePrefix + "Connection Refused: not authorised."
      == "Failed to connect to MQTT broker: Connection Refused: not authorised."
  {
  }

  /** The refusal pinned by the client's tests: code 5, not authorised. */
  lemma NotAuthorisedMessage()
    ensures ConnectFailureMessage(ConnackRefusedNotAuthorized)
      == "Failed to connect to MQTT broker: Connection Refused: not authorised."
  {
    NotAuthorisedReason();
    NotAuthorisedJoin();
  }

  /** Disconnect code 1 is reported as "Unexpected disconnection: 1". */
  lemma UnexpectedDisconnectOne()
    ensures DisconnectError(1) == Some("Unexpected disconnection: 1")
  {
    assert Decimal.DigitChar(1) == '1';
    assert Decimal.IntToString(1) == "1";
    assert UnexpectedDisconnectPrefix + "1" == "Unexpected disconnection: 1";
  }
}
