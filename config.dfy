/**
 * The options records accepted by a client (`connectOptions`) and a listener
 * (`listenOptions`), and the two static `ValidateConfig` chains that check them.
 */
module Config {
  import opened Wrappers
  import opened JsValues
  import opened Seqs

  /**
   * An options object. A field the caller leaves out reads as `undefined`,
   * written `Null` here. Each validator reads only the fields it knows.
   */
  datatype Options = Options(
    host: JsValue,
    port: JsValue,
    secure: JsValue,
    rejectUnauthorized: JsValue,
    ipv6Only: JsValue,
    requestCert: JsValue,
    cert: JsValue,
    key: JsValue,
    ca: JsValue)

  /** The checks, one per message the validators throw. */
  datatype ConfigError =
    | BadOptions
    | HostType
    | PortType
    | SecureType
    | Ipv6OnlyType
    | RejectUnauthorizedType
    | RequestCertType
    | CertType
    | KeyType
    | CaType
  {
    function Message(): string
    {
      match this
      case BadOptions => "Bad options"
      case HostType => "host must be null or string"
      case PortType => "port must be a number"
      case SecureType => "secure must be null or boolean"
      case Ipv6OnlyType => "ipv6Only must be null or boolean"
      case RejectUnauthorizedType => "rejectUnauthorized must be null or boolean"
      case RequestCertType => "requestCert must be null or boolean"
      case CertType => "cert must be null, string or Buffer"
      case KeyType => "key must be null, string or Buffer"
      case CaType => "ca must be null, string or Buffer"
    }
  }

  /**
   * What each field check accepts: `port` must be a number; every other
   * field is checked only when truthy, `host` for a string, the flags for a
   * boolean, the certificate material for a string or a `Buffer`.
   */
  predicate Accepts(o: Options, check: ConfigError)
  {
    match check
    case BadOptions => true
    case HostType => !Truthy(o.host) || o.host.Str?
    case PortType => o.port.Num?
    case SecureType => !Truthy(o.secure) || o.secure.Bool?
    case Ipv6OnlyType => !Truthy(o.ipv6Only) || o.ipv6Only.Bool?
    case RejectUnauthorizedType => !Truthy(o.rejectUnauthorized) || o.rejectUnauthorized.Bool?
    case RequestCertType => !Truthy(o.requestCert) || o.requestCert.Bool?
    case CertType => !Truthy(o.cert) || o.cert.Str? || o.cert.Bytes?
    case KeyType => !Truthy(o.key) || o.key.Str? || o.key.Bytes?
    case CaType => !Truthy(o.ca) || o.ca.Str? || o.ca.Bytes?
  }

  /** The order in which the client's validator runs its field checks. */
  const ClientChecks: seq<ConfigError> :=
    [HostType, PortType, SecureType, RejectUnauthorizedType, CertType, KeyType, CaType]

  /** The order in which the listener's validator runs its field checks. */
  const ServerChecks: seq<ConfigError> :=
    [HostType, PortType, Ipv6OnlyType, RejectUnauthorizedType, RequestCertType, CertType, KeyType, CaType]

  /**
   * `err` is the check that fails first when `checks` run in order on `o`:
   * it fails, and every check before it passes.
   */
  ghost predicate FirstFailing(o: Options, checks: seq<ConfigError>, err: ConfigError)
  {
    exists i :: 0 <= i < |checks| && checks[i] == err && !Accepts(o, err) &&
      forall j :: 0 <= j < i ==> Accepts(o, checks[j])
  }

  /**
   * `AbstractClient.ValidateConfig(options)`. `None` is a falsy `options`
   * argument. The options pass exactly when every client check accepts them;
   * otherwise the error reported is `BadOptions` for missing options, or the
   * first failing check in source order.
   */
  function ValidateClientConfig(options: Option<Options>): (r: Outcome<ConfigError>)
    ensures options.None? ==> r == Fail(BadOptions)
    ensures r.Fail? ==> r.error == BadOptions || r.error in ClientChecks
  {
    if options.None? then Fail(BadOptions)
    else
      var o := options.value;
      if !Accepts(o, HostType) then Fail(HostType)
      else if !Accepts(o, PortType) then Fail(PortType)
      else if !Accepts(o, SecureType) then Fail(SecureType)
      else if !Accepts(o, RejectUnauthorizedType) then Fail(RejectUnauthorizedType)
      else if !Accepts(o, CertType) then Fail(CertType)
      else if !Accepts(o, KeyType) then Fail(KeyType)
      else if !Accepts(o, CaType) then Fail(CaType)
      else Pass
  }

  /**
   * `AbstractServer.ValidateConfig(options)`: the client's chain without the
   * `secure` check, with `ipv6Only` checked after `port` and `requestCert`
   * after `rejectUnauthorized`.
   */
  function ValidateServerConfig(options: Option<Options>): (r: Outcome<ConfigError>)
    ensures options.None? ==> r == Fail(BadOptions)
    ensures r.Fail? ==> r.error == BadOptions || r.error in ServerChecks
  {
    if options.None? then Fail(BadOptions)
    else
      var o := options.value;
      if !Accepts(o, HostType) then Fail(HostType)
      else if !Accepts(o, PortType) then Fail(PortType)
      else if !Accepts(o, Ipv6OnlyType) then Fail(Ipv6OnlyType)
      else if !Accepts(o, RejectUnauthorizedType) then Fail(RejectUnauthorizedType)
      else if !Accepts(o, RequestCertType) then Fail(RequestCertType)
      else if !Accepts(o, CertType) then Fail(CertType)
      else if !Accepts(o, KeyType) then Fail(KeyType)
      else if !Accepts(o, CaType) then Fail(CaType)
      else Pass
  }

  /**
   * The reference reading of a validator: run `checks` in order and report
   * the first that refuses `o`.
   */
  function FirstRefusal(o: Options, checks: seq<ConfigError>): Outcome<ConfigError>
  {
    if checks == [] then Pass
    else if !Accepts(o, checks[0]) then Fail(checks[0])
    else FirstRefusal(o, checks[1..])
  }

  /**
   * The reference reading passes exactly when every check accepts, and the
   * check it reports is the first failing one.
   */
  lemma {:induction false} FirstRefusalMeaning(o: Options, checks: seq<ConfigError>)
    ensures FirstRefusal(o, checks).Pass? <==> forall c :: c in checks ==> Accepts(o, c)
    ensures FirstRefusal(o, checks).Fail? ==> FirstFailing(o, checks, FirstRefusal(o, checks).error)
  {
    if checks != [] && Accepts(o, checks[0]) {
      var rest := checks[1..];
      FirstRefusalMeaning(o, rest);
      assert checks == [checks[0]] + rest;
      var r := FirstRefusal(o, rest);
      if r.Fail? {
        var i :| 0 <= i < |rest| && rest[i] == r.error && !Accepts(o, r.error) &&
          forall j :: 0 <= j < i ==> Accepts(o, rest[j]);
        assert checks[i + 1] == r.error;
        forall j | 0 <= j < i + 1 ensures Accepts(o, checks[j]) {
          if j > 0 { assert checks[j] == rest[j - 1]; }
        }
      }
    } else if checks != [] {
      assert checks[0] == FirstRefusal(o, checks).error;
    }
  }

  /**
   * The client's validator is the reference reading over `ClientChecks`:
   * options pass exactly when every client check accepts them, and a refusal
   * names the first check, in source order, that fails.
   */
  lemma ClientConfigMeaning(o: Options)
    ensures ValidateClientConfig(Some(o)) == FirstRefusal(o, ClientChecks)
  {
    var cs := ClientChecks;
    assert FirstRefusal(o, cs[7..]) == Pass;
    assert FirstRefusal(o, cs[6..]) == if !Accepts(o, CaType) then Fail(CaType) else FirstRefusal(o, cs[7..]);
    assert FirstRefusal(o, cs[5..]) == if !Accepts(o, KeyType) then Fail(KeyType) else FirstRefusal(o, cs[6..]);
    assert FirstRefusal(o, cs[4..]) == if !Accepts(o, CertType) then Fail(CertType) else FirstRefusal(o, cs[5..]);
    assert FirstRefusal(o, cs[3..]) ==
      if !Accepts(o, RejectUnauthorizedType) then Fail(RejectUnauthorizedType) else FirstRefusal(o, cs[4..]);
    assert FirstRefusal(o, cs[2..]) == if !Accepts(o, SecureType) then Fail(SecureType) else FirstRefusal(o, cs[3..]);
    assert FirstRefusal(o, cs[1..]) == if !Accepts(o, PortType) then Fail(PortType) else FirstRefusal(o, cs[2..]);
    assert FirstRefusal(o, cs) == if !Accepts(o, HostType) then Fail(HostType) else FirstRefusal(o, cs[1..]);
  }

  /** The listener's validator is the reference reading over `ServerChecks`. */
  lemma ServerConfigMeaning(o: Options)
    ensures ValidateServerConfig(Some(o)) == FirstRefusal(o, ServerChecks)
  {
    var cs := ServerChecks;
    assert FirstRefusal(o, cs[8..]) == Pass;
    assert FirstRefusal(o, cs[7..]) == if !Accepts(o, CaType) then Fail(CaType) else FirstRefusal(o, cs[8..]);
    assert FirstRefusal(o, cs[6..]) == if !Accepts(o, KeyType) then Fail(KeyType) else FirstRefusal(o, cs[7..]);
    assert FirstRefusal(o, cs[5..]) == if !Accepts(o, CertType) then Fail(CertType) else FirstRefusal(o, cs[6..]);
    assert FirstRefusal(o, cs[4..]) ==
      if !Accepts(o, RequestCertType) then Fail(RequestCertType) else FirstRefusal(o, cs[5..]);
    assert FirstRefusal(o, cs[3..]) ==
      if !Accepts(o, RejectUnauthorizedType) then Fail(RejectUnauthorizedType) else FirstRefusal(o, cs[4..]);
    assert FirstRefusal(o, cs[2..]) == if !Accepts(o, Ipv6OnlyType) then Fail(Ipv6OnlyType) else FirstRefusal(o, cs[3..]);
    assert FirstRefusal(o, cs[1..]) == if !Accepts(o, PortType) then Fail(PortType) else FirstRefusal(o, cs[2..]);
    assert FirstRefusal(o, cs) == if !Accepts(o, HostType) then Fail(HostType) else FirstRefusal(o, cs[1..]);
  }

  /**
   * The listener follows the client's rules, minus `secure`, plus the two
   * listener flags: an options record passes the listener's validator exactly
   * when, with `secure` left out, it passes the client's and its `ipv6Only`
   * and `requestCert` are falsy or boolean.
   */
  lemma ServerRulesExtendClientRules(o: Options)
    ensures ValidateServerConfig(Some(o)).Pass? <==>
              && ValidateClientConfig(Some(o.(secure := Null))).Pass?
              && Accepts(o, Ipv6OnlyType)
              && Accepts(o, RequestCertType)
  {
    var o' := o.(secure := Null);
    assert forall c :: c in ClientChecks && c != SecureType ==> (Accepts(o', c) <==> Accepts(o, c));
    assert Accepts(o', SecureType);
  }

  /** A falsy options argument, or one without a numeric `port`, is refused. */
  lemma PortIsRequired(options: Option<Options>)
    requires options.None? || !options.value.port.Num?
    ensures ValidateClientConfig(options).Fail? && ValidateServerConfig(options).Fail?
  {
    if options.Some? {
      assert PortType in ClientChecks && PortType in ServerChecks;
    }
  }
}
