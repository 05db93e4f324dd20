/** The load balancer as the program sees it, and the bodies of the updates it sends. */
module LoadBalancers {
  import opened Wrappers
  import opened Ingresses
  import RoutingRules
  import TlsPolicy

  /** A TLS configuration: certificate ids on a listener, trusted authorities on a backend set. */
  datatype Ssl = Ssl(ids: seq<string>, cipher: Option<string>, protocols: seq<string>)

  datatype Connection = Connection(idle: Option<int>, proxyVersion: Option<int>, proxyOptions: seq<string>)

  datatype Listener = Listener(
    port: int, protocol: string, defaultBs: string, ssl: Option<Ssl>, connection: Option<Connection>, policy: Option<string>)

  datatype Backend = Backend(ip: string, port: int, weight: int, drain: bool, backup: bool, offline: bool)

  datatype BackendSet = BackendSet(
    policy: string, checker: HealthChecker, ssl: Option<Ssl>, backends: seq<Backend>, app: Option<string>, lb: Option<LbCookie>)

  datatype LoadBalancer = LoadBalancer(
    listeners: map<string, Listener>,
    backendSets: map<string, BackendSet>,
    policies: map<string, seq<RoutingRules.RoutingRule>>)

  datatype UpdateError =
    | CannotPreserve
    | CannotClearTls(protocol: string)
    | TlsRequired(protocol: string)
    | NotFound(name: string)
    | Resolve(error: TlsPolicy.ResolveError)
    | Refused

  /** A TLS configuration that the API returns but does not accept back. */
  predicate Customized(ssl: Option<Ssl>) {
    ssl.Some? && ssl.value.cipher == Some(TlsPolicy.CUSTOMIZED_CIPHER)
  }

  function FromCurrent(current: Option<Ssl>): Result<Option<Ssl>, UpdateError> {
    if Customized(current) then Err(CannotPreserve) else Ok(current)
  }

  predicate TlsIsRequired(protocol: string) {
    Http2Family(protocol)
  }

  function NonEmpty(s: string, otherwise: string): string {
    if s == "" then otherwise else s
  }

  /** The listener as UpdateListener sends it. What the caller does not give is taken from the
      listener as it was read; the routing policy is always the caller's. */
  function ListenerDetails(l: Listener, policy: Option<string>, ssl: Option<Ssl>, connection: Option<Connection>,
                           protocol: string, defaultBs: string, preserveSsl: bool): Result<Listener, UpdateError> {
    var ssl' :- if preserveSsl && ssl.None? then FromCurrent(l.ssl) else Ok(ssl);
    Ok(Listener(l.port, NonEmpty(protocol, l.protocol), NonEmpty(defaultBs, l.defaultBs), ssl',
                if connection.None? then l.connection else connection, policy))
  }

  /** The listener as ClearListenerSSL sends it. */
  function ClearedDetails(l: Listener, policy: Option<string>, connection: Option<Connection>, protocol: string, defaultBs: string)
    : Result<Listener, UpdateError>
  {
    if TlsIsRequired(NonEmpty(protocol, l.protocol)) then Err(CannotClearTls(NonEmpty(protocol, l.protocol)))
    else ListenerDetails(l, policy, None, connection, protocol, defaultBs, false)
  }

  function Endpoints(backends: seq<Backend>): set<(string, int)> {
    set b | b in backends :: (b.ip, b.port)
  }

  /** UpdateBackends: nothing is sent when the endpoints are the same. */
  function WithBackends(bs: BackendSet, backends: seq<Backend>): Result<Option<BackendSet>, UpdateError> {
    if Endpoints(bs.backends) == Endpoints(backends) then Ok(None)
    else
      var ssl :- FromCurrent(bs.ssl);
      Ok(Some(BackendSet(bs.policy, bs.checker, ssl, backends, bs.app, bs.lb)))
  }

  datatype BackendSetDetails = BackendSetDetails(
    policy: string, checker: HealthChecker, ssl: Option<Ssl>, app: Option<string>, lb: Option<LbCookie>)

  /** A desired TLS configuration without a policy keeps the one in place. */
  function PreservedPolicy(desired: Option<Ssl>, current: Option<Ssl>): Result<Option<Ssl>, UpdateError> {
    if desired.None? || current.None? then Ok(desired)
    else if desired.value.cipher.None? && Customized(current) then Err(CannotPreserve)
    else Ok(Some(Ssl(desired.value.ids,
                     if desired.value.cipher.None? then current.value.cipher else desired.value.cipher,
                     if desired.value.protocols == [] then current.value.protocols else desired.value.protocols)))
  }

  /** UpdateBackendSetDetails: everything but the backends. */
  function WithDetails(bs: BackendSet, d: BackendSetDetails): Result<BackendSet, UpdateError> {
    var ssl :- PreservedPolicy(d.ssl, bs.ssl);
    Ok(BackendSet(d.policy, d.checker, ssl, bs.backends, d.app, d.lb))
  }

  // ---- The two ways of updating a backend set ---------------------------------------------

  function After(bs: BackendSet, sent: Option<BackendSet>): BackendSet {
    if sent.Some? then sent.value else bs
  }

  function BackendsThenDetails(bs: BackendSet, backends: seq<Backend>, d: BackendSetDetails): Result<BackendSet, UpdateError> {
    var sent :- WithBackends(bs, backends);
    WithDetails(After(bs, sent), d)
  }

  function DetailsThenBackends(bs: BackendSet, backends: seq<Backend>, d: BackendSetDetails): Result<BackendSet, UpdateError> {
    var bs' :- WithDetails(bs, d);
    var sent :- WithBackends(bs', backends);
    Ok(After(bs', sent))
  }

  /** The backend controllers and the ingress controller update the same backend set. They commute
      unless the backends change and the details replace the customized suite, or bring it in. */
  lemma UpdatesCommuteIff(bs: BackendSet, backends: seq<Backend>, d: BackendSetDetails)
    ensures BackendsThenDetails(bs, backends, d) == DetailsThenBackends(bs, backends, d) <==>
      Endpoints(bs.backends) == Endpoints(backends)
      || PreservedPolicy(d.ssl, bs.ssl).Err?
      || (Customized(bs.ssl) <==> Customized(PreservedPolicy(d.ssl, bs.ssl).value))
  {
  }

  /** With requestable suites on both sides they always commute, and both take effect: each update
      leaves the fields of the other alone. */
  lemma RequestableUpdatesCommute(bs: BackendSet, backends: seq<Backend>, d: BackendSetDetails)
    requires !Customized(bs.ssl) && !Customized(d.ssl)
    ensures BackendsThenDetails(bs, backends, d) == DetailsThenBackends(bs, backends, d)
    ensures var r := BackendsThenDetails(bs, backends, d);
      r.Ok? && Endpoints(r.value.backends) == Endpoints(backends)
      && r.value.policy == d.policy && r.value.checker == d.checker && r.value.app == d.app && r.value.lb == d.lb
      && (r.value.ssl.Some? <==> d.ssl.Some?) && (d.ssl.Some? ==> r.value.ssl.value.ids == d.ssl.value.ids)
  {
  }

  const ANY_SET := BackendSet(DEFAULT_POLICY, DEFAULT_CHECKER, Some(Ssl(["ca"], Some(TlsPolicy.CUSTOMIZED_CIPHER), [])), [], None, None)

  /** Clearing TLS from a backend set with the customized suite must come before new backends. */
  lemma CustomizedSuiteBreaksTheTie()
    ensures var d := BackendSetDetails(DEFAULT_POLICY, DEFAULT_CHECKER, None, None, None);
      var added := [Backend("10.0.0.1", 80, 1, false, false, false)];
      DetailsThenBackends(ANY_SET, added, d).Ok? && BackendsThenDetails(ANY_SET, added, d).Err?
  {
    var b := Backend("10.0.0.1", 80, 1, false, false, false);
    assert b in [b];
    assert (b.ip, b.port) in Endpoints([b]);
  }
}
