/**
 Connection settings and their validation (`ConnectionConfig`): a
 configuration is accepted only when the host, username, password and
 topic list are non-empty, the port lies in 1..65535 and the keepalive is
 positive; otherwise the first violated constraint is reported.
 */
module Config {
  import opened Base

  /** The raw constructor arguments of a configuration, before validation. */
  datatype Settings = Settings(
    host: string,
    username: string,
    password: string,
    topics: seq<string>,
    port: int,
    keepalive: int,
    clientId: string)

  /** The constrained fields, in the order in which they are checked. */
  datatype Field = Host | Username | Password | Topics | Port | Keepalive

  const MinPort := 1
  const MaxPort := 65535
  const DefaultPort := 1883
  const DefaultKeepalive := 60

  /** Position of a field in the checking order. */
  function Rank(f: Field): nat
  {
    match f
    case Host => 0
    case Username => 1
    case Password => 2
    case Topics => 3
    case Port => 4
    case Keepalive => 5
  }

  /** The settings break the constraint on field `f`. */
  predicate Violates(s: Settings, f: Field)
  {
    match f
    case Host => s.host == ""
    case Username => s.username == ""
    case Password => s.password == ""
    case Topics => s.topics == []
    case Port => !(MinPort <= s.port <= MaxPort)
    case Keepalive => s.keepalive <= 0
  }

  /** All six constraints hold. */
  predicate WellFormed(s: Settings)
  {
    && s.host != ""
    && s.username != ""
    && s.password != ""
    && s.topics != []
    && MinPort <= s.port <= MaxPort
    && s.keepalive > 0
  }

  /** The validation error text naming field `f`. */
  function ErrorMessage(f: Field): string
  {
    match f
    case Host => "Host cannot be empty"
    case Username => "MQTT username cannot be empty"
    case Password => "MQTT password cannot be empty"
    case Topics => "MQTT topics list cannot be empty"
    case Port => "Port must be between 1 and 65535"
    case Keepalive => "Keepalive must be positive"
  }

  /** A configuration that passed validation; no other kind can be built. */
  type ConnectionConfig = s: Settings | WellFormed(s)
    witness Settings("localhost", "user", "password", ["topic"], DefaultPort, DefaultKeepalive, "")

  /** The settings built when port, keepalive and client id are omitted:
      port 1883, keepalive 60 and an empty client id. */
  function DefaultSettings(host: string, username: string, password: string, topics: seq<string>): (s: Settings)
    ensures s.host == host && s.username == username && s.password == password && s.topics == topics
    ensures MinPort <= s.port <= MaxPort && s.keepalive > 0
  {
    Settings(host, username, password, topics, DefaultPort, DefaultKeepalive, "")
  }

  /** The defaults never cause a rejection: settings built with them are
      accepted exactly when the four remaining fields are non-empty, and are
      otherwise refused for one of those four. */
  lemma DefaultsAccepted(host: string, username: string, password: string, topics: seq<string>)
    ensures var s := DefaultSettings(host, username, password, topics);
      && (Validate(s).Success? <==> host != "" && username != "" && password != "" && topics != [])
      && (Validate(s).Failure? ==> Validate(s).error != ErrorMessage(Port) && Validate(s).error != ErrorMessage(Keepalive))
  {
  }

  /** Construction of a `ConnectionConfig`: the settings themselves when they
      are well formed, otherwise the message of the first violated field. */
  function Validate(s: Settings): (r: Result<ConnectionConfig, string>)
    ensures r.Success? <==> WellFormed(s)
    ensures r.Success? ==> r.value == s
    ensures r.Failure? ==>
      exists f :: Violates(s, f) && r.error == ErrorMessage(f)
        && forall g :: Rank(g) < Rank(f) ==> !Violates(s, g)
  {
    if s.host == "" then
      assert Violates(s, Host);
      Failure(ErrorMessage(Host))
    else if s.username == "" then
      assert Violates(s, Username);
      Failure(ErrorMessage(Username))
    else if s.password == "" then
      assert Violates(s, Password);
      Failure(ErrorMessage(Password))
    else if s.topics == [] then
      assert Violates(s, Topics);
      Failure(ErrorMessage(Topics))
    else if !(MinPort <= s.port <= MaxPort) then
      assert Violates(s, Port);
      Failure(ErrorMessage(Port))
    else if s.keepalive <= 0 then
      assert Violates(s, Keepalive);
      Failure(ErrorMessage(Keepalive))
    else
      Success(s)
  }

  /** Every field has its own message, so an error identifies the field. */
  lemma ErrorMessageInjective(f: Field, g: Field)
    ensures ErrorMessage(f) == ErrorMessage(g) ==> f == g
  {
  }

  /** Settings that break exactly one constraint are rejected with that
      constraint's message, whatever the checking order. */
  lemma SingleViolationReported(s: Settings, f: Field)
    requires Violates(s, f)
    requires forall g :: g != f ==> !Violates(s, g)
    ensures Validate(s) == Failure(ErrorMessage(f))
  {
  }

  /** The port is accepted exactly on 1..65535, e.g. 0 and 65536 are refused. */
  lemma PortRange(s: Settings)
    requires !Violates(s, Host) && !Violates(s, Username) && !Violates(s, Password) && !Violates(s, Topics)
    ensures Validate(s).Failure? && Validate(s).error == ErrorMessage(Port) <==> s.port < 1 || s.port > 65535
  {
  }
}
