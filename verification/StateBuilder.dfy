/** The desired state of an ingress class, as the fold that computes it. */
module StateBuilder {
  import opened Wrappers
  import opened Text
  import opened Ingresses
  import Dedupe
  import Folding
  import Sorting
  import TlsPolicy

  datatype TlsCandidate = TlsCandidate(ingressKey: string, order: nat, config: TlsConfig)
  datatype BackendTls = BackendTls(enabled: bool, hasInput: bool, config: TlsConfig)
  datatype IdleTimeout = IdleTimeout(timeout: int, namespace: string, name: string)
  datatype IngressState = IngressState(backendSets: set<string>, ports: set<int>)

  /** The maps under construction. */
  datatype Builder = Builder(
    backendSets: set<string>,
    listeners: set<int>,
    protocols: map<int, string>,
    defaults: map<int, string>,
    idle: map<int, IdleTimeout>,
    reach: map<int, set<string>>,
    checkers: map<string, HealthChecker>,
    policies: map<string, string>,
    sessions: map<string, Session>,
    backendTls: map<string, BackendTls>,
    backendTlsConfigs: map<string, TlsConfig>,
    tlsCandidates: map<int, seq<TlsCandidate>>,
    listenerPolicies: map<int, seq<TlsPolicy.Candidate>>,
    backendSetPolicies: map<string, seq<TlsPolicy.Candidate>>,
    checkerOwner: Option<Ingress>,
    ingresses: map<string, IngressState>,
    // the ingress being processed
    order: nat,
    ports: set<int>,
    sets: set<string>)

  const EMPTY := Builder(
    {DEFAULT_BACKEND_SET}, {}, map[], map[], map[], map[],
    map[DEFAULT_BACKEND_SET := DEFAULT_CHECKER], map[DEFAULT_BACKEND_SET := DEFAULT_POLICY],
    map[], map[], map[], map[], map[], map[], None, map[], 0, {}, {})

  // ---- The checks made for one path ------------------------------------------------------

  /** Keep the value already recorded for a key, or record the first one. */
  function Agreeing<K, V(==)>(m: map<K, V>, k: K, v: V): Option<map<K, V>> {
    if k in m && m[k] != v then None else Some(m[k := v])
  }

  function CheckProtocol(m: map<int, string>, v: Visit): Result<map<int, string>, BuildError> {
    match Agreeing(m, v.port, Protocol(v.ing))
    case Some(m') => Ok(m')
    case None => Err(ProtocolConflict(v.port))
  }

  /** Only TCP listeners have a default backend set of their own. */
  function DefaultOf(v: Visit): string {
    if IsTcp(v.ing) then v.bs else DEFAULT_BACKEND_SET
  }

  function CheckDefault(m: map<int, string>, v: Visit): Result<map<int, string>, BuildError> {
    match Agreeing(m, v.port, DefaultOf(v))
    case Some(m') => Ok(m')
    case None => Err(DefaultBackendSetConflict(v.port))
  }

  function IdleOf(ing: Ingress): Result<Option<int>, BuildError> {
    match ing.notes.idleTimeout
    case None => Ok(None)
    case Some(Err(_)) => Err(BadIdleTimeout)
    case Some(Ok(t)) => if 1 <= t <= 7200 then Ok(Some(t)) else Err(BadIdleTimeout)
  }

  function CheckIdle(m: map<int, IdleTimeout>, v: Visit): Result<map<int, IdleTimeout>, BuildError> {
    var timeout :- IdleOf(v.ing);
    match timeout
    case None => Ok(m)
    case Some(t) =>
      if v.port in m && m[v.port].timeout != t then
        Err(IdleTimeoutConflict(v.port, m[v.port].namespace, m[v.port].name, m[v.port].timeout,
                                v.ing.namespace, v.ing.name, t))
      else Ok(m[v.port := IdleTimeout(t, v.ing.namespace, v.ing.name)])
  }

  function CheckHealthChecker(m: map<string, HealthChecker>, v: Visit): Result<map<string, HealthChecker>, BuildError> {
    match v.ing.notes.healthChecker
    case Err(e) => Err(BadHealthChecker(e))
    case Ok(h) =>
      if v.bs in m && h != DEFAULT_CHECKER && h != m[v.bs] then Err(HealthCheckerConflict(v.bs))
      else Ok(m[v.bs := h])
  }

  function CheckPolicy(m: map<string, string>, v: Visit): Result<map<string, string>, BuildError> {
    match Agreeing(m, v.bs, BackendPolicy(v.ing))
    case Some(m') => Ok(m')
    case None => Err(PolicyConflict(v.bs))
  }

  /** The session persistence an ingress asks for; it may name one kind of cookie only. */
  function SessionOf(ing: Ingress): Result<Session, BuildError> {
    var bad := BadSession(ing.namespace, ing.name);
    match (ing.notes.appCookie, ing.notes.lbCookie)
    case (Some(Err(_)), _) => Err(bad)
    case (_, Some(Err(_))) => Err(bad)
    case (Some(_), Some(_)) => Err(bad)
    case (Some(Ok(a)), None) => Ok(Session(Some(a), None))
    case (None, Some(Ok(l))) => Ok(Session(None, Some(l)))
    case (None, None) => Ok(Session(None, None))
  }

  /** A load balancer cookie wins over an application cookie, and the one already there wins
      over a later one of its kind. */
  function Reconciled(current: Session, incoming: Session): Session {
    if current == incoming then current
    else if current.lb.Some? then current
    else if incoming.lb.Some? then Session(None, incoming.lb)
    else if current.app.Some? then current
    else if incoming.app.Some? then Session(incoming.app, None)
    else Session(None, None)
  }

  function CheckSession(m: map<string, Session>, v: Visit): Result<map<string, Session>, BuildError> {
    var incoming :- SessionOf(v.ing);
    Ok(m[v.bs := if v.bs in m then Reconciled(m[v.bs], incoming) else incoming])
  }

  /** The artifact its backend set uses: the host's secret before the first certificate. */
  function BackendInput(v: Visit): TlsConfig {
    if v.tls == [] then NO_TLS
    else if v.tls[|v.tls| - 1].kind == SECRET then v.tls[|v.tls| - 1]
    else v.tls[0]
  }

  function CheckBackendTls(m: map<string, BackendTls>, v: Visit): Result<map<string, BackendTls>, BuildError> {
    var enabled, hasInput, config := v.ing.notes.backendTls, v.tls != [], BackendInput(v);
    if v.bs in m then
      var current := m[v.bs];
      if current.enabled != enabled then Err(BackendTlsEnabledConflict(v.bs))
      else if enabled && current.hasInput && hasInput && current.config != config then
        Err(BackendTlsArtifactConflict(v.bs))
      else if hasInput && !current.hasInput then Ok(m[v.bs := BackendTls(enabled, true, config)])
      else Ok(m)
    else Ok(m[v.bs := BackendTls(enabled, hasInput, config)])
  }

  function UsedBackendTls(m: map<string, TlsConfig>, v: Visit): map<string, TlsConfig> {
    if v.tls == [] then m
    else m[v.bs := if v.ing.notes.backendTls then BackendInput(v) else NO_TLS]
  }

  function Appended<K, V>(m: map<K, seq<V>>, k: K, vs: seq<V>): map<K, seq<V>> {
    if vs == [] then m else m[k := (if k in m then m[k] else []) + vs]
  }

  function Reaching(m: map<int, set<string>>, port: int, bs: string): map<int, set<string>> {
    m[port := (if port in m then m[port] else {}) + {bs}]
  }

  function Numbered(key: string, order: nat, configs: seq<TlsConfig>): (r: seq<TlsCandidate>)
    ensures |r| == |configs|
    ensures forall i :: 0 <= i < |r| ==> r[i] == TlsCandidate(key, order + i, configs[i])
    decreases |configs|
  {
    if configs == [] then [] else [TlsCandidate(key, order, configs[0])] + Numbered(key, order + 1, configs[1..])
  }

  const LISTENER_ANNOTATION := "oci-native-ingress.oraclecloud.com/listener-ssl-config"
  const BACKEND_SET_ANNOTATION := "oci-native-ingress.oraclecloud.com/backendset-ssl-config"

  function ListenerCandidate(ing: Ingress): seq<TlsPolicy.Candidate> {
    match ing.notes.listenerTls
    case None => []
    case Some(raw) => [TlsPolicy.Candidate(ing.Key(), LISTENER_ANNOTATION, raw)]
  }

  function BackendSetCandidate(ing: Ingress): seq<TlsPolicy.Candidate> {
    match ing.notes.backendSetTls
    case None => []
    case Some(raw) => [TlsPolicy.Candidate(ing.Key(), BACKEND_SET_ANNOTATION, raw)]
  }

  /** One path, with its checks in the program's order. */
  function VisitStep(b: Builder, v: Visit): Result<Builder, BuildError> {
    var protocols :- CheckProtocol(b.protocols, v);
    var defaults :- CheckDefault(b.defaults, v);
    var idle :- CheckIdle(b.idle, v);
    var checkers :- CheckHealthChecker(b.checkers, v);
    var policies :- CheckPolicy(b.policies, v);
    var sessions :- CheckSession(b.sessions, v);
    var backendTls :- CheckBackendTls(b.backendTls, v);
    Ok(b.(backendSets := b.backendSets + {v.bs},
          listeners := b.listeners + {v.port},
          ports := b.ports + {v.port},
          sets := b.sets + {v.bs},
          protocols := protocols,
          defaults := defaults,
          idle := idle,
          reach := Reaching(Reaching(b.reach, v.port, v.bs), v.port, defaults[v.port]),
          checkers := checkers,
          policies := policies,
          sessions := sessions,
          backendTls := backendTls,
          backendTlsConfigs := UsedBackendTls(b.backendTlsConfigs, v),
          tlsCandidates := Appended(b.tlsCandidates, v.port, Numbered(v.ing.Key(), b.order, v.tls)),
          order := b.order + |v.tls|,
          listenerPolicies := Appended(b.listenerPolicies, v.port, ListenerCandidate(v.ing)),
          backendSetPolicies := Appended(b.backendSetPolicies, v.bs, BackendSetCandidate(v.ing))))
  }

  /** Start of an ingress: the annotations for the shared default backend set have one owner. */
  function Begin(b: Builder, ing: Ingress): Result<Builder, BuildError> {
    var start := b.(order := 0, ports := {}, sets := {DEFAULT_BACKEND_SET});
    match ing.notes.defaultHealthChecker
    case None => Ok(start)
    case Some(checker) =>
      if !ing.hasDefaultBackend then Err(DefaultCheckerNeedsDefaultBackend)
      else if b.checkerOwner.Some? then
        Err(DefaultCheckerConflict(b.checkerOwner.value.namespace, b.checkerOwner.value.name))
      else match checker
        case Err(e) => Err(BadDefaultChecker(ing.namespace, ing.name, e))
        case Ok(h) => Ok(start.(checkers := b.checkers[DEFAULT_BACKEND_SET := h], checkerOwner := Some(ing)))
  }

  function End(b: Builder, ing: Ingress): Builder {
    b.(ingresses := b.ingresses[ing.Key() := IngressState(b.sets, b.ports)])
  }

  /** The TLS hosts the state builder works with. */
  function CountedTlsHosts(ing: Ingress): set<string> {
    if IsHttpBased(ing) then TlsHosts(ing) else {}
  }

  function ResolveFor(cluster: Cluster, ing: Ingress, p: BackedPath): Result<Visit, BuildError> {
    var target :- Locate(cluster, ing, CountedTlsHosts(ing), p);
    Ok(Visit(ing, p, target.port, target.bs, TlsInputs(ing, p.host)))
  }

  function PathStep(cluster: Cluster, ing: Ingress, b: Builder, p: BackedPath): Result<Builder, BuildError> {
    var v :- ResolveFor(cluster, ing, p);
    VisitStep(b, v)
  }

  function PathStepper(cluster: Cluster, ing: Ingress): (Builder, BackedPath) -> Result<Builder, BuildError> {
    (b, p) => PathStep(cluster, ing, b, p)
  }

  function IngressStep(cluster: Cluster, b: Builder, ing: Ingress): Result<Builder, BuildError> {
    var b0 :- Begin(b, ing);
    var b1 :- Folding.Fold(PathStepper(cluster, ing), b0, BackedPaths(ing.rules));
    Ok(End(b1, ing))
  }

  function IngressStepper(cluster: Cluster): (Builder, Ingress) -> Result<Builder, BuildError> {
    (b, ing) => IngressStep(cluster, b, ing)
  }

  // ---- What is assembled after the last ingress ------------------------------------------

  datatype ClassState = ClassState(
    backendSets: set<string>,
    listeners: set<int>,
    protocols: map<int, string>,
    defaults: map<int, string>,
    idle: map<int, int>,
    reach: map<int, set<string>>,
    checkers: map<string, HealthChecker>,
    policies: map<string, string>,
    sessions: map<string, Session>,
    backendTls: map<string, TlsConfig>,
    backendSetPolicies: map<string, TlsPolicy.ExplicitPolicy>,
    listenerTls: map<int, seq<TlsConfig>>,
    listenerPolicies: map<int, TlsPolicy.ExplicitPolicy>)

  datatype Built = Built(group: ClassState, ingresses: map<string, IngressState>)

  predicate TlsCandidateLess(a: TlsCandidate, b: TlsCandidate) {
    if a.ingressKey != b.ingressKey then Lt(a.ingressKey, b.ingressKey)
    else if a.order != b.order then a.order < b.order
    else if a.config.artifact != b.config.artifact then Lt(a.config.artifact, b.config.artifact)
    else if a.config.kind != b.config.kind then Lt(a.config.kind, b.config.kind)
    else Lt(a.config.namespace, b.config.namespace)
  }

  function ConfigOf(c: TlsCandidate): TlsConfig { c.config }

  function ListenerTlsConfigs(candidates: seq<TlsCandidate>): seq<TlsConfig> {
    Dedupe.FirstOccurrences(Sorting.Map(ConfigOf, Sorting.Sort(TlsCandidateLess, candidates)), {})
  }

  function ListenerTlsMap(m: map<int, seq<TlsCandidate>>): map<int, seq<TlsConfig>> {
    map p | p in m && ListenerTlsConfigs(m[p]) != [] :: ListenerTlsConfigs(m[p])
  }

  predicate Active(config: TlsConfig) {
    config.kind != "" && config.artifact != ""
  }

  /** Merge the candidates of the active targets, in the order the targets are listed. */
  function MergeTargets<K>(decode: string -> TlsPolicy.Document, keys: seq<K>,
                           candidates: map<K, seq<TlsPolicy.Candidate>>, active: set<K>)
    : Result<map<K, TlsPolicy.ExplicitPolicy>, (K, TlsPolicy.MergeError)>
    requires forall k :: k in keys ==> k in candidates
  {
    if keys == [] then Ok(map[]) else
      var k := keys[|keys| - 1];
      var m :- MergeTargets(decode, keys[..|keys| - 1], candidates, active);
      if k !in active then Ok(m)
      else match TlsPolicy.Merged(decode, candidates[k])
        case Err(e) => Err((k, e))
        case Ok(None) => Ok(m)
        case Ok(Some(p)) => Ok(m[k := p])
  }

  ghost function SortedKeys<V>(m: map<string, V>): (r: seq<string>)
    ensures forall k :: k in r <==> k in m
  {
    Sorting.ListingElements(m.Keys);
    Sorting.SortPermutes(Lt, Sorting.Listing(m.Keys));
    Sorting.SameElements(Sorting.Sort(Lt, Sorting.Listing(m.Keys)), Sorting.Listing(m.Keys));
    Sorting.Sort(Lt, Sorting.Listing(m.Keys))
  }

  ghost function SortedPorts<V>(m: map<int, V>): (r: seq<int>)
    ensures forall k :: k in r <==> k in m
  {
    Sorting.ListingElements(m.Keys);
    Sorting.SortPermutes(Sorting.IntLess, Sorting.Listing(m.Keys));
    Sorting.SameElements(Sorting.Sort(Sorting.IntLess, Sorting.Listing(m.Keys)), Sorting.Listing(m.Keys));
    Sorting.Sort(Sorting.IntLess, Sorting.Listing(m.Keys))
  }

  function ActiveBackendSets(m: map<string, TlsConfig>): set<string> {
    set bs | bs in m && Active(m[bs])
  }

  ghost function Assemble(cluster: Cluster, b: Builder): Result<Built, BuildError> {
    var listenerTls := ListenerTlsMap(b.tlsCandidates);
    match MergeTargets(cluster.decode, SortedPorts(b.listenerPolicies), b.listenerPolicies, listenerTls.Keys)
    case Err((port, e)) => Err(ListenerTlsPolicyError(port, e))
    case Ok(listenerPolicies) =>
      match MergeTargets(cluster.decode, SortedKeys(b.backendSetPolicies), b.backendSetPolicies,
                         ActiveBackendSets(b.backendTlsConfigs))
      case Err((bs, e)) => Err(BackendSetTlsPolicyError(bs, e))
      case Ok(backendSetPolicies) =>
        Ok(Built(
          ClassState(b.backendSets, b.listeners, b.protocols, b.defaults,
                     map p | p in b.idle :: b.idle[p].timeout,
                     b.reach, b.checkers, b.policies, b.sessions, b.backendTlsConfigs,
                     backendSetPolicies, listenerTls, listenerPolicies),
          b.ingresses))
  }

  // ---- The whole computation -------------------------------------------------------------

  predicate Counts(ic: IngressClass, ing: Ingress) {
    Belongs(ic, ing) && !ing.deleting
  }

  function Group(ic: IngressClass, ings: seq<Ingress>): seq<Ingress> {
    if ings == [] then []
    else (if Counts(ic, ings[0]) then [ings[0]] else []) + Group(ic, ings[1..])
  }

  predicate IngressLess(a: Ingress, b: Ingress) {
    if a.namespace != b.namespace then Lt(a.namespace, b.namespace) else Lt(a.name, b.name)
  }

  function SortedGroup(ic: IngressClass, ings: seq<Ingress>): seq<Ingress> {
    Sorting.Sort(IngressLess, Group(ic, ings))
  }

  ghost function Build(cluster: Cluster, ic: IngressClass, ings: seq<Ingress>): Result<Built, BuildError> {
    var b :- Folding.Fold(IngressStepper(cluster), EMPTY, SortedGroup(ic, ings));
    Assemble(cluster, b)
  }
}
