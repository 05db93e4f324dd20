/** The desired load balancer of a class: the class state with its TLS artifacts resolved. */
module DesiredState {
  import opened Wrappers
  import opened Text
  import opened Ingresses
  import opened LoadBalancers
  import opened Reconcile
  import opened StateBuilder
  import opened StateFacts
  import opened StateTheorems
  import RoutingAgreement
  import Sorting
  import TlsPolicy

  /** The certificate authority a TLS artifact stands for. */
  type AuthorityOf = TlsConfig -> Option<string>

  datatype Desired = Desired(sets: map<string, BackendSetGoal>, listeners: map<int, ListenerGoal>, reach: map<int, set<string>>)

  function Lookup<K, V>(m: map<K, V>, k: K, otherwise: V): V {
    if k in m then m[k] else otherwise
  }

  function LookupOption<K, V>(m: map<K, V>, k: K): Option<V> {
    if k in m then Some(m[k]) else None
  }

  function AuthoritySsl(authority: AuthorityOf, config: TlsConfig): Option<Ssl> {
    if Active(config) && authority(config).Some? then Some(Ssl([authority(config).value], None, [])) else None
  }

  function SetGoal(c: ClassState, authority: AuthorityOf, n: string): BackendSetGoal {
    var session := Lookup(c.sessions, n, Session(None, None));
    BackendSetGoal(AuthoritySsl(authority, Lookup(c.backendTls, n, NO_TLS)), LookupOption(c.backendSetPolicies, n),
                   Lookup(c.checkers, n, DEFAULT_CHECKER), Lookup(c.policies, n, ""), session.app, session.lb)
  }

  function PortGoal(c: ClassState, certificate: CertificateOf, p: int): ListenerGoal {
    ListenerGoal(p, ListenerSsl(certificate, Lookup(c.listenerTls, p, [])), LookupOption(c.listenerPolicies, p),
                 Lookup(c.protocols, p, ""), Lookup(c.defaults, p, ""), LookupOption(c.idle, p))
  }

  function DesiredOf(c: ClassState, certificate: CertificateOf, authority: AuthorityOf): Desired {
    Desired(map n | n in c.backendSets :: SetGoal(c, authority, n),
            map p | p in c.listeners :: PortGoal(c, certificate, p),
            c.reach)
  }

  predicate Uncommitted(ssl: Option<Ssl>) {
    ssl.Some? ==> ssl.value.cipher.None? && ssl.value.protocols == []
  }

  ghost predicate GoodSetGoal(g: BackendSetGoal) {
    Checkable(g.checker) && g.policy != "" && Uncommitted(g.ssl)
    && (g.explicit.Some? ==> TlsPolicy.Requestable(g.explicit.value))
  }

  ghost predicate GoodListenerGoal(d: Desired, p: int, g: ListenerGoal) {
    g.port == p && g.protocol != "" && g.defaultBs != "" && Uncommitted(g.ssl)
    && p in d.reach && g.defaultBs in d.reach[p] && d.reach[p] <= d.sets.Keys
    && (g.explicit.Some? ==> TlsPolicy.Requestable(g.explicit.value))
    && (g.protocol == TCP ==> g.ssl.None?)
  }

  ghost predicate WellFormed(d: Desired) {
    DEFAULT_BACKEND_SET in d.sets
    && (forall n :: n in d.sets ==> GoodSetGoal(d.sets[n]))
    && forall p :: p in d.listeners ==> GoodListenerGoal(d, p, d.listeners[p])
  }

  /** The decoders of the annotations only produce TCP and HTTP checkers, and no empty policy. */
  ghost predicate GoodAnnotations(ings: seq<Ingress>) {
    forall ing :: ing in ings ==>
      Protocol(ing) != "" && BackendPolicy(ing) != ""
      && (ing.notes.healthChecker.Ok? ==> Checkable(ing.notes.healthChecker.value))
      && (ing.notes.defaultHealthChecker.Some? && ing.notes.defaultHealthChecker.value.Ok? ==>
            Checkable(ing.notes.defaultHealthChecker.value.value))
  }

  lemma {:induction false} DefaultCheckerIsCheckable(group: seq<Ingress>)
    requires GoodAnnotations(group)
    ensures Checkable(DefaultChecker(group))
    decreases |group|
  {
    if group != [] {
      var n := |group| - 1;
      assert group == group[..n] + [group[n]];
      assert group[n] in group;
      DefaultCheckerIsCheckable(group[..n]);
    }
  }

  lemma {:induction false} LastCheckerIsSomebodys(vs: seq<Visit>, bs: string)
    requires LastChecker(vs, bs).Some?
    ensures exists v :: v in vs && v.bs == bs && LastChecker(vs, bs) == Some(CheckerOf(v))
    decreases |vs|
  {
    assert vs == Init(vs) + [Last(vs)] && Last(vs) in vs;
    if Last(vs).bs != bs {
      LastCheckerIsSomebodys(Init(vs), bs);
      var v :| v in Init(vs) && v.bs == bs && LastChecker(Init(vs), bs) == Some(CheckerOf(v));
      assert v in vs;
    }
  }

  lemma BuiltChecker(group: seq<Ingress>, vs: seq<Visit>, c: ClassState, n: string)
    requires CheckersHold(vs, c.checkers) && c.checkers[DEFAULT_BACKEND_SET] == DefaultChecker(group)
    requires GoodAnnotations(group) && forall v :: v in vs ==> v.ing in group
    requires n in c.checkers
    ensures Checkable(c.checkers[n])
  {
    if n == DEFAULT_BACKEND_SET {
      DefaultCheckerIsCheckable(group);
    } else {
      LastCheckerIsSomebodys(vs, n);
    }
  }

  lemma BuiltPolicy(group: seq<Ingress>, vs: seq<Visit>, c: ClassState, n: string)
    requires PoliciesHold(vs, c.policies)
    requires GoodAnnotations(group) && forall v :: v in vs ==> v.ing in group
    requires n in c.policies
    ensures c.policies[n] != ""
  {
    if n == DEFAULT_BACKEND_SET {
      assert |DEFAULT_POLICY| > 0;
    } else {
      KeysMember(vs, Any, SetOf, n);
      var v :| v in vs && Any(v) && SetOf(v) == n;
      assert c.policies[v.bs] == BackendPolicy(v.ing);
    }
  }

  lemma BuiltSetPolicy(cluster: Cluster, vs: seq<Visit>, c: ClassState, n: string)
    requires BackendSetPoliciesHold(cluster, vs, c.backendTls, c.backendSetPolicies)
    requires n in c.backendSetPolicies
    ensures TlsPolicy.Requestable(c.backendSetPolicies[n])
  {
    TlsPolicy.MergedIsRequestable(cluster.decode, PolicyNotes(vs, SetOf, n, BackendSetCandidate));
  }

  lemma BuiltListenerPolicy(cluster: Cluster, vs: seq<Visit>, c: ClassState, p: int)
    requires ListenerPoliciesHold(cluster, vs, c.listenerPolicies)
    requires p in c.listenerPolicies
    ensures TlsPolicy.Requestable(c.listenerPolicies[p])
  {
    TlsPolicy.MergedIsRequestable(cluster.decode, PolicyNotes(vs, PortOf, p, ListenerCandidate));
  }

  /** The protocol, the default backend set and the reachable backend sets of a port. */
  lemma BuiltPort(group: seq<Ingress>, vs: seq<Visit>, c: ClassState, p: int)
    requires c.backendSets == {DEFAULT_BACKEND_SET} + Sets(vs) && c.listeners == Ports(vs)
    requires ProtocolsHold(vs, c.protocols) && DefaultsHold(vs, c.defaults) && ReachHolds(vs, c.reach)
    requires GoodAnnotations(group) && forall v :: v in vs ==> v.ing in group && v.bs != ""
    requires p in c.listeners
    ensures p in c.protocols && c.protocols[p] != "" && p in c.defaults && c.defaults[p] != ""
    ensures p in c.reach && c.defaults[p] in c.reach[p] && c.reach[p] <= c.backendSets
  {
    KeysMember(vs, Any, PortOf, p);
    var v :| v in vs && Any(v) && PortOf(v) == p;
    assert c.protocols[v.port] == Protocol(v.ing) && c.defaults[v.port] == DefaultOf(v);
    assert |DEFAULT_BACKEND_SET| > 0;
    RoutingAgreement.ReachMember(vs, p, DefaultOf(v));
    RoutingAgreement.ReachIsKnown(vs, c, p);
  }

  lemma {:induction false} NoArtifacts(vs: seq<Visit>, p: int)
    requires forall v :: v in vs && v.port == p ==> v.tls == []
    ensures Artifacts(vs, p) == {}
    decreases |vs|
  {
    if vs != [] {
      assert vs == Init(vs) + [Last(vs)] && Last(vs) in vs;
      NoArtifacts(Init(vs), p);
    }
  }

  /** A TCP listener has no certificates. */
  lemma BuiltTcpPort(vs: seq<Visit>, c: ClassState, certificate: CertificateOf, p: int)
    requires ProtocolsHold(vs, c.protocols) && ListenerTlsHolds(vs, c.listenerTls)
    requires forall v :: v in vs && IsTcp(v.ing) ==> v.tls == []
    requires p in c.protocols && c.protocols[p] == TCP
    ensures PortGoal(c, certificate, p).ssl.None?
  {
    forall v | v in vs && v.port == p ensures v.tls == [] {
      assert c.protocols[v.port] == Protocol(v.ing);
    }
    NoArtifacts(vs, p);
    assert p !in c.listenerTls;
  }

  lemma VisitFacts(cluster: Cluster, group: seq<Ingress>, v: Visit)
    requires v in GroupVisits(cluster, group)
    ensures v.ing in group && v.bs != "" && (IsTcp(v.ing) ==> v.tls == [])
  {
    GroupVisitsMember(cluster, group, v);
    PathVisitsMember(cluster, v.ing, BackedPaths(v.ing.rules), v);
    var servicePort := ServicePort(cluster, v.ing.namespace, v.path.service).value;
    assert BackendSetName(cluster, v.ing.namespace, v.path.service.name, servicePort)[0] == 'b';
    assert |TCP| == 3 && |HTTP| == 4 && |HTTP2| == 5 && TCP[0] != GRPC[0];
  }

  lemma BuiltSetGoals(cluster: Cluster, group: seq<Ingress>, vs: seq<Visit>, c: ClassState, authority: AuthorityOf)
    requires CheckersHold(vs, c.checkers) && c.checkers[DEFAULT_BACKEND_SET] == DefaultChecker(group)
    requires PoliciesHold(vs, c.policies) && BackendSetPoliciesHold(cluster, vs, c.backendTls, c.backendSetPolicies)
    requires c.backendSets == {DEFAULT_BACKEND_SET} + Sets(vs)
    requires GoodAnnotations(group) && forall v :: v in vs ==> v.ing in group
    ensures forall n :: n in c.backendSets ==> GoodSetGoal(SetGoal(c, authority, n))
  {
    forall n | n in c.backendSets ensures GoodSetGoal(SetGoal(c, authority, n)) {
      BuiltChecker(group, vs, c, n);
      BuiltPolicy(group, vs, c, n);
      if n in c.backendSetPolicies { BuiltSetPolicy(cluster, vs, c, n); }
    }
  }

  lemma BuiltListenerGoals(cluster: Cluster, group: seq<Ingress>, vs: seq<Visit>, c: ClassState,
                           certificate: CertificateOf, authority: AuthorityOf)
    requires c.backendSets == {DEFAULT_BACKEND_SET} + Sets(vs) && c.listeners == Ports(vs)
    requires ProtocolsHold(vs, c.protocols) && DefaultsHold(vs, c.defaults) && ReachHolds(vs, c.reach)
    requires ListenerTlsHolds(vs, c.listenerTls) && ListenerPoliciesHold(cluster, vs, c.listenerPolicies)
    requires GoodAnnotations(group) && forall v :: v in vs ==> v.ing in group && v.bs != "" && (IsTcp(v.ing) ==> v.tls == [])
    ensures forall p :: p in c.listeners ==> GoodListenerGoal(DesiredOf(c, certificate, authority), p, PortGoal(c, certificate, p))
  {
    forall p | p in c.listeners ensures GoodListenerGoal(DesiredOf(c, certificate, authority), p, PortGoal(c, certificate, p)) {
      BuiltPort(group, vs, c, p);
      if c.protocols[p] == TCP { BuiltTcpPort(vs, c, certificate, p); }
      if p in c.listenerPolicies { BuiltListenerPolicy(cluster, vs, c, p); }
    }
  }

  /** Everything a successful build asks for is well formed. */
  lemma BuiltIsWellFormed(cluster: Cluster, ic: IngressClass, ings: seq<Ingress>, certificate: CertificateOf, authority: AuthorityOf)
    requires GoodAnnotations(SortedGroup(ic, ings)) && Build(cluster, ic, ings).Ok?
    ensures WellFormed(DesiredOf(Build(cluster, ic, ings).value.group, certificate, authority))
  {
    var group := SortedGroup(ic, ings);
    var vs, c := GroupVisits(cluster, group), Build(cluster, ic, ings).value.group;
    BuildRefinesSpecification(cluster, ic, ings);
    forall v | v in vs ensures v.ing in group && v.bs != "" && (IsTcp(v.ing) ==> v.tls == []) {
      VisitFacts(cluster, group, v);
    }
    BuiltSetGoals(cluster, group, vs, c, authority);
    BuiltListenerGoals(cluster, group, vs, c, certificate, authority);
  }
}
