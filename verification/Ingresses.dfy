/** Ingress objects after their annotations have been decoded, and what the program derives
    from one ingress and one path. */
module Ingresses {
  import opened Wrappers
  import opened Text
  import Dedupe
  import TlsPolicy

  const DEFAULT_BACKEND_SET := "default_ingress"
  const DEFAULT_POLICY := "LEAST_CONNECTIONS"
  const TCP := "TCP"
  const HTTP := "HTTP"
  const HTTP2 := "HTTP2"
  const GRPC := "GRPC"

  datatype PathType = Exact | ImplementationSpecific | Prefix {
    function Name(): string {
      match this
      case Exact => "Exact"
      case ImplementationSpecific => "ImplementationSpecific"
      case Prefix => "Prefix"
    }
  }

  datatype ServiceBackend = ServiceBackend(name: string, portNumber: int, portName: string)
  datatype Path = Path(path: string, pathType: Option<PathType>, service: Option<ServiceBackend>)
  datatype Rule = Rule(host: string, paths: Option<seq<Path>>)
  datatype TlsEntry = TlsEntry(hosts: seq<string>, secretName: string)

  datatype HealthChecker = HealthChecker(
    protocol: string, port: int, intervalMillis: int, timeoutMillis: int, retries: int,
    urlPath: Option<string>, returnCode: Option<int>, responseRegex: Option<string>, plainText: Option<bool>)

  const DEFAULT_CHECKER := HealthChecker(TCP, 0, 10000, 3000, 3, None, None, None, None)

  datatype LbCookie = LbCookie(name: Option<string>, attributes: string)
  datatype Session = Session(app: Option<string>, lb: Option<LbCookie>)

  /** A value that failed to decode keeps the decoder's message. */
  type Decoded<T> = Result<T, string>

  /** The annotations of an ingress; an absent annotation is None, and a value that some loop of
      the program still has to interpret is kept undigested. */
  datatype Annotations = Annotations(
    protocol: Option<string>,
    policy: Option<string>,
    certificates: Option<seq<string>>,
    backendTls: bool,
    listenerTls: Option<string>,
    backendSetTls: Option<string>,
    httpPort: Option<Decoded<int>>,
    httpsPort: Option<Decoded<int>>,
    idleTimeout: Option<Decoded<int>>,
    healthChecker: Decoded<HealthChecker>,
    defaultHealthChecker: Option<Decoded<HealthChecker>>,
    appCookie: Option<Decoded<string>>,
    lbCookie: Option<Decoded<LbCookie>>)

  datatype Ingress = Ingress(
    namespace: string, name: string, className: Option<string>, deleting: bool,
    hasDefaultBackend: bool, tls: seq<TlsEntry>, rules: seq<Rule>, notes: Annotations)
  {
    function Key(): string {
      namespace + "/" + name
    }
  }

  datatype IngressClass = IngressClass(name: string, isDefault: bool)

  /** What the program reads besides ingresses: named service ports, the digest behind generated
      names, and the JSON decoder for TLS policies. */
  datatype Cluster = Cluster(
    services: map<(string, string), seq<(string, int)>>,
    digest: string -> string,
    decode: string -> TlsPolicy.Document)

  predicate Belongs(ic: IngressClass, ing: Ingress) {
    (ing.className.None? && ic.isDefault) || (ing.className.Some? && ing.className.value == ic.name)
  }

  function Protocol(ing: Ingress): string {
    match ing.notes.protocol
    case None => HTTP
    case Some(p) => ToUpper(p)
  }

  predicate IsTcp(ing: Ingress) {
    Protocol(ing) == TCP
  }

  predicate IsHttpBased(ing: Ingress) {
    Protocol(ing) == HTTP || Protocol(ing) == HTTP2 || Protocol(ing) == GRPC
  }

  /** The documented values of the protocol annotation. */
  predicate AcceptedProtocol(ing: Ingress) {
    IsTcp(ing) || IsHttpBased(ing)
  }

  predicate Http2Family(protocol: string) {
    protocol == HTTP2 || protocol == GRPC
  }

  function BackendPolicy(ing: Ingress): string {
    match ing.notes.policy
    case None => DEFAULT_POLICY
    case Some(p) => p
  }

  /** The listener certificate ids of the annotation: trimmed entries, blanks and repeats dropped. */
  function CertificateIds(ing: Ingress): seq<string> {
    match ing.notes.certificates
    case None => []
    case Some(entries) => Dedupe.FirstOccurrences(entries, {""})
  }

  method GetListenerTlsCertificateOcids(ing: Ingress) returns (ocids: seq<string>)
    ensures ocids == CertificateIds(ing)
  {
    ocids := [];
    if ing.notes.certificates.Some? {
      var entries := ing.notes.certificates.value;
      var seen: set<string> := {};
      assert seen + {""} == {""} && entries[0..] == entries;
      for i := 0 to |entries|
        invariant Dedupe.FirstOccurrences(entries, {""}) == ocids + Dedupe.FirstOccurrences(entries[i..], seen + {""})
      {
        assert entries[i..][0] == entries[i] && entries[i..][1..] == entries[i + 1..];
        if entries[i] == "" || entries[i] in seen {
          continue;
        }
        assert seen + {""} + {entries[i]} == seen + {entries[i]} + {""};
        seen := seen + {entries[i]};
        ocids := ocids + [entries[i]];
      }
    }
  }

  /** The hosts under spec.tls. */
  function TlsHosts(ing: Ingress): set<string> {
    set i, j | 0 <= i < |ing.tls| && 0 <= j < |ing.tls[i].hosts| :: ing.tls[i].hosts[j]
  }

  /** The secret of a host: the last entry under spec.tls that names the host. */
  function SecretOf(tls: seq<TlsEntry>, host: string): Option<string> {
    if tls == [] then None
    else if host in tls[|tls| - 1].hosts then Some(tls[|tls| - 1].secretName)
    else SecretOf(tls[..|tls| - 1], host)
  }

  function ToInt32(n: int): int {
    (n + 0x8000_0000) % 0x1_0000_0000 - 0x8000_0000
  }

  datatype BuildError =
    | ServiceNotFound(namespace: string, service: string)
    | ServicePortNotFound(service: string, portName: string)
    | BadPortAnnotation(message: string)
    | DefaultCheckerNeedsDefaultBackend
    | DefaultCheckerConflict(namespace: string, name: string)
    | BadDefaultChecker(namespace: string, name: string, message: string)
    | ProtocolConflict(port: int)
    | DefaultBackendSetConflict(port: int)
    | BadIdleTimeout
    | IdleTimeoutConflict(port: int, ownerNamespace: string, ownerName: string, owned: int,
                          namespace: string, name: string, timeout: int)
    | BadHealthChecker(message: string)
    | HealthCheckerConflict(backendSet: string)
    | PolicyConflict(backendSet: string)
    | BadSession(namespace: string, name: string)
    | BackendTlsEnabledConflict(backendSet: string)
    | BackendTlsArtifactConflict(backendSet: string)
    | ListenerTlsPolicyError(port: int, merge: TlsPolicy.MergeError)
    | BackendSetTlsPolicyError(backendSet: string, merge: TlsPolicy.MergeError)

  function NamedPort(ports: seq<(string, int)>, name: string): Option<int> {
    if ports == [] then None else if ports[0].0 == name then Some(ports[0].1) else NamedPort(ports[1..], name)
  }

  function ServicePort(cluster: Cluster, namespace: string, service: ServiceBackend): Result<int, BuildError> {
    if service.portNumber != 0 then Ok(service.portNumber)
    else if (namespace, service.name) !in cluster.services then Err(ServiceNotFound(namespace, service.name))
    else match NamedPort(cluster.services[(namespace, service.name)], service.portName)
      case Some(p) => Ok(p)
      case None => Err(ServicePortNotFound(service.name, service.portName))
  }

  /** An absent port annotation reads as zero. */
  function AnnotatedPort(port: Option<Decoded<int>>): Decoded<int> {
    match port
    case None => Ok(0)
    case Some(p) => p
  }

  function ListenerPort(ing: Ingress, tlsHosts: set<string>, host: string, servicePort: int): Result<int, BuildError> {
    var http, https := AnnotatedPort(ing.notes.httpPort), AnnotatedPort(ing.notes.httpsPort);
    if http.Err? then Err(BadPortAnnotation(http.error))
    else if https.Err? then Err(BadPortAnnotation(https.error))
    else if CertificateIds(ing) != [] || host in tlsHosts then
      Ok(if https.value != 0 then ToInt32(https.value) else servicePort)
    else Ok(if http.value != 0 then ToInt32(http.value) else servicePort)
  }

  function BackendSetName(cluster: Cluster, namespace: string, service: string, port: int): string {
    "bs_" + cluster.digest(namespace + service + Itoa(port))
  }

  function ListenerName(port: int): string {
    "route_" + Itoa(port)
  }

  lemma ListenerNameInjective(p: int, q: int)
    requires ListenerName(p) == ListenerName(q)
    ensures p == q
  {
    assert ListenerName(p)[6..] == Itoa(p) && ListenerName(q)[6..] == Itoa(q);
    ItoaInjective(p, q);
  }

  lemma GeneratedIsNotDefault(cluster: Cluster, namespace: string, service: string, port: int)
    ensures BackendSetName(cluster, namespace, service, port) != DEFAULT_BACKEND_SET
  {
    assert BackendSetName(cluster, namespace, service, port)[0] == 'b';
  }

  const SECRET := "secret"
  const CERTIFICATE := "certificate"

  datatype TlsConfig = TlsConfig(kind: string, artifact: string, namespace: string)
  const NO_TLS := TlsConfig("", "", "")

  /** The secret configured for a host; spec.tls counts for HTTP-family ingresses only. */
  function HostSecret(ing: Ingress, host: string): string {
    if host == "" || !IsHttpBased(ing) then ""
    else match SecretOf(ing.tls, host)
      case None => ""
      case Some(name) => name
  }

  function CertificateConfigs(namespace: string, ids: seq<string>): (r: seq<TlsConfig>)
    ensures |r| == |ids|
    ensures forall i :: 0 <= i < |ids| ==> r[i] == TlsConfig(CERTIFICATE, ids[i], namespace)
  {
    if ids == [] then [] else [TlsConfig(CERTIFICATE, ids[0], namespace)] + CertificateConfigs(namespace, ids[1..])
  }

  /** The TLS artifacts a path brings to its listener, in order of discovery: the certificates of
      the ingress, then the secret of the host. */
  function TlsInputs(ing: Ingress, host: string): seq<TlsConfig> {
    (if IsHttpBased(ing) then CertificateConfigs(ing.namespace, CertificateIds(ing)) else [])
    + (if HostSecret(ing, host) != "" then [TlsConfig(SECRET, HostSecret(ing, host), ing.namespace)] else [])
  }

  /** A path with a service backend, and the host of its rule. */
  datatype BackedPath = BackedPath(host: string, path: Path, service: ServiceBackend)

  /** Where a path goes: its listener port and its backend set. */
  datatype Target = Target(port: int, bs: string)

  function Locate(cluster: Cluster, ing: Ingress, tlsHosts: set<string>, p: BackedPath): Result<Target, BuildError> {
    var servicePort :- ServicePort(cluster, ing.namespace, p.service);
    var port :- ListenerPort(ing, tlsHosts, p.host, servicePort);
    Ok(Target(port, BackendSetName(cluster, ing.namespace, p.service.name, servicePort)))
  }

  /** A path of an ingress with its target and TLS artifacts worked out. */
  datatype Visit = Visit(ing: Ingress, path: BackedPath, port: int, bs: string, tls: seq<TlsConfig>)

  function Backed(host: string, path: Path): seq<BackedPath> {
    match path.service
    case None => []
    case Some(service) => [BackedPath(host, path, service)]
  }

  function RulePaths(host: string, paths: seq<Path>): seq<BackedPath> {
    if paths == [] then [] else Backed(host, paths[0]) + RulePaths(host, paths[1..])
  }

  function PathsOfRule(rule: Rule): seq<BackedPath> {
    match rule.paths
    case None => []
    case Some(paths) => RulePaths(rule.host, paths)
  }

  /** The paths that have a service backend, in order; the others are skipped with a warning. */
  function BackedPaths(rules: seq<Rule>): seq<BackedPath> {
    if rules == [] then [] else PathsOfRule(rules[0]) + BackedPaths(rules[1..])
  }
}
