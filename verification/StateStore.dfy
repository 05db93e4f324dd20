/** The store that holds the desired state, and the loops that fill it. */
module StateStore {
  import opened Wrappers
  import opened Text
  import opened Ingresses
  import opened StateBuilder
  import Dedupe
  import Folding
  import Sorting
  import StateFacts
  import TlsPolicy

  // ---- spec.tls --------------------------------------------------------------------------

  function WithHosts(m: map<string, string>, hosts: seq<string>, secret: string): map<string, string>
    decreases |hosts|
  {
    if hosts == [] then m else WithHosts(m, hosts[..|hosts| - 1], secret)[hosts[|hosts| - 1] := secret]
  }

  /** The secret of every host under spec.tls; a later entry overwrites an earlier one. */
  function SecretMap(tls: seq<TlsEntry>): map<string, string>
    decreases |tls|
  {
    if tls == [] then map[]
    else WithHosts(SecretMap(tls[..|tls| - 1]), tls[|tls| - 1].hosts, tls[|tls| - 1].secretName)
  }

  lemma {:induction false} WithHostsLooksUp(m: map<string, string>, hosts: seq<string>, secret: string, h: string)
    ensures h in WithHosts(m, hosts, secret) <==> h in m || h in hosts
    ensures h in hosts ==> WithHosts(m, hosts, secret)[h] == secret
    ensures h !in hosts && h in m ==> WithHosts(m, hosts, secret)[h] == m[h]
    decreases |hosts|
  {
    if hosts != [] {
      var n := |hosts| - 1;
      assert hosts == hosts[..n] + [hosts[n]];
      WithHostsLooksUp(m, hosts[..n], secret, h);
    }
  }

  lemma {:induction false} SecretMapLooksUp(tls: seq<TlsEntry>, host: string)
    ensures host in SecretMap(tls) <==> SecretOf(tls, host).Some?
    ensures host in SecretMap(tls) ==> SecretOf(tls, host) == Some(SecretMap(tls)[host])
    decreases |tls|
  {
    if tls != [] {
      var n := |tls| - 1;
      SecretMapLooksUp(tls[..n], host);
      WithHostsLooksUp(SecretMap(tls[..n]), tls[n].hosts, tls[n].secretName, host);
    }
  }

  lemma {:induction false} SecretOfListed(tls: seq<TlsEntry>, host: string)
    ensures SecretOf(tls, host).Some? <==> exists i :: 0 <= i < |tls| && host in tls[i].hosts
    decreases |tls|
  {
    if tls != [] {
      var n := |tls| - 1;
      SecretOfListed(tls[..n], host);
      if i :| 0 <= i < n && host in tls[i].hosts {
        assert host in tls[..n][i].hosts;
      }
    }
  }

  lemma SecretMapKeys(ing: Ingress)
    ensures SecretMap(ing.tls).Keys == TlsHosts(ing)
  {
    forall h ensures h in SecretMap(ing.tls) <==> h in TlsHosts(ing) {
      SecretMapLooksUp(ing.tls, h);
      SecretOfListed(ing.tls, h);
      if i :| 0 <= i < |ing.tls| && h in ing.tls[i].hosts {
        var j :| 0 <= j < |ing.tls[i].hosts| && ing.tls[i].hosts[j] == h;
        assert ing.tls[i].hosts[j] in TlsHosts(ing);
      }
    }
  }

  function CountedSecrets(ing: Ingress): map<string, string> {
    if IsHttpBased(ing) then SecretMap(ing.tls) else map[]
  }

  method CollectTlsHosts(ing: Ingress) returns (hosts: set<string>, secrets: map<string, string>)
    ensures hosts == CountedTlsHosts(ing) && secrets == CountedSecrets(ing)
  {
    hosts, secrets := {}, map[];
    if IsHttpBased(ing) {
      for i := 0 to |ing.tls|
        invariant secrets == SecretMap(ing.tls[..i]) && hosts == secrets.Keys
      {
        var entry := ing.tls[i];
        for j := 0 to |entry.hosts|
          invariant secrets == WithHosts(SecretMap(ing.tls[..i]), entry.hosts[..j], entry.secretName)
          invariant hosts == secrets.Keys
        {
          hosts := hosts + {entry.hosts[j]};
          secrets := secrets[entry.hosts[j] := entry.secretName];
          assert entry.hosts[..j + 1][..j] == entry.hosts[..j];
        }
        assert entry.hosts[..|entry.hosts|] == entry.hosts;
        assert ing.tls[..i + 1][..i] == ing.tls[..i];
      }
      assert ing.tls[..|ing.tls|] == ing.tls;
      SecretMapKeys(ing);
    }
  }

  // ---- One path --------------------------------------------------------------------------

  /** The TLS artifacts of a path, in order of discovery. */
  method CollectTlsInputs(ing: Ingress, host: string, secrets: map<string, string>) returns (configs: seq<TlsConfig>)
    requires secrets == CountedSecrets(ing)
    ensures configs == TlsInputs(ing, host)
  {
    configs := [];
    var ids := GetListenerTlsCertificateOcids(ing);
    if |ids| > 0 && IsHttpBased(ing) {
      for i := 0 to |ids|
        invariant |configs| == i
        invariant forall k :: 0 <= k < i ==> configs[k] == TlsConfig(CERTIFICATE, ids[k], ing.namespace)
      {
        configs := configs + [TlsConfig(CERTIFICATE, ids[i], ing.namespace)];
      }
    }
    assert configs == if IsHttpBased(ing) then CertificateConfigs(ing.namespace, ids) else [];
    SecretMapLooksUp(ing.tls, host);
    if host != "" && host in secrets && secrets[host] != "" {
      configs := configs + [TlsConfig(SECRET, secrets[host], ing.namespace)];
    }
  }

  /** Number the artifacts of a path and append them to the candidates of its listener. */
  method AppendTlsCandidates(m: map<int, seq<TlsCandidate>>, port: int, key: string, first: nat, tls: seq<TlsConfig>)
    returns (r: map<int, seq<TlsCandidate>>, order: nat)
    ensures r == Appended(m, port, Numbered(key, first, tls)) && order == first + |tls|
  {
    r, order := m, first;
    for i := 0 to |tls|
      invariant order == first + i
      invariant r == Appended(m, port, Numbered(key, first, tls[..i]))
    {
      NumberedExtend(key, first, tls, i);
      AppendedTwice(m, port, Numbered(key, first, tls[..i]), [TlsCandidate(key, order, tls[i])]);
      r := Appended(r, port, [TlsCandidate(key, order, tls[i])]);
      order := order + 1;
    }
    assert tls[..|tls|] == tls;
  }

  /** The maps after one path, checked one after the other; the first failed check ends the build. If
      the maps describe the paths `vs`, the path is refused exactly when it is invalid or conflicts with
      one of them, and otherwise the maps describe one path more. */
  method RecordPath(b: Builder, v: Visit) returns (r: Result<Builder, BuildError>)
    ensures forall vs :: StateFacts.Describes(vs, b) && v.bs != DEFAULT_BACKEND_SET ==>
      (r.Ok? <==> StateFacts.Consistent(vs + [v])) && (r.Ok? ==> StateFacts.Describes(vs + [v], r.value))
    ensures r == VisitStep(b, v)
  {
    RecordingDescribes(b, v);
    var reach := Reaching(b.reach, v.port, v.bs);
    var protocols :- CheckProtocol(b.protocols, v);
    var defaults :- CheckDefault(b.defaults, v);
    var idle :- CheckIdle(b.idle, v);
    reach := Reaching(reach, v.port, defaults[v.port]);
    var checkers :- CheckHealthChecker(b.checkers, v);
    var policies :- CheckPolicy(b.policies, v);
    var sessions :- CheckSession(b.sessions, v);
    var tlsCandidates, order := AppendTlsCandidates(b.tlsCandidates, v.port, v.ing.Key(), b.order, v.tls);
    var backendTls :- CheckBackendTls(b.backendTls, v);
    return Ok(b.(backendSets := b.backendSets + {v.bs}, listeners := b.listeners + {v.port},
                 ports := b.ports + {v.port}, sets := b.sets + {v.bs},
                 protocols := protocols, defaults := defaults, idle := idle, reach := reach,
                 checkers := checkers, policies := policies, sessions := sessions,
                 backendTls := backendTls, backendTlsConfigs := UsedBackendTls(b.backendTlsConfigs, v),
                 tlsCandidates := tlsCandidates, order := order,
                 listenerPolicies := Appended(b.listenerPolicies, v.port, ListenerCandidate(v.ing)),
                 backendSetPolicies := Appended(b.backendSetPolicies, v.bs, BackendSetCandidate(v.ing))));
  }

  lemma RecordingDescribes(b: Builder, v: Visit)
    ensures forall vs :: StateFacts.Describes(vs, b) && v.bs != DEFAULT_BACKEND_SET ==>
      (VisitStep(b, v).Ok? <==> StateFacts.Consistent(vs + [v]))
      && (VisitStep(b, v).Ok? ==> StateFacts.Describes(vs + [v], VisitStep(b, v).value))
  {
    forall vs | StateFacts.Describes(vs, b) && v.bs != DEFAULT_BACKEND_SET
      ensures VisitStep(b, v).Ok? <==> StateFacts.Consistent(vs + [v])
      ensures VisitStep(b, v).Ok? ==> StateFacts.Describes(vs + [v], VisitStep(b, v).value)
    {
      StateFacts.StepDescribes(vs, b, v);
    }
  }

  lemma AppendedTwice<K, V>(m: map<K, seq<V>>, k: K, xs: seq<V>, ys: seq<V>)
    ensures Appended(Appended(m, k, xs), k, ys) == Appended(m, k, xs + ys)
  {
    var prior := if k in m then m[k] else [];
    assert (prior + xs) + ys == prior + (xs + ys);
    if xs == [] { assert xs + ys == ys; }
    if ys == [] { assert xs + ys == xs; }
  }

  lemma NumberedExtend(key: string, order: nat, configs: seq<TlsConfig>, i: nat)
    requires i < |configs|
    ensures Numbered(key, order, configs[..i + 1])
         == Numbered(key, order, configs[..i]) + [TlsCandidate(key, order + i, configs[i])]
  {
  }

  method AddPath(cluster: Cluster, ing: Ingress, hosts: set<string>, secrets: map<string, string>, p: BackedPath, b: Builder)
    returns (r: Result<Builder, BuildError>)
    requires hosts == CountedTlsHosts(ing) && secrets == CountedSecrets(ing)
    ensures r == PathStepper(cluster, ing)(b, p)
  {
    var servicePort :- ServicePort(cluster, ing.namespace, p.service);
    var port :- ListenerPort(ing, hosts, p.host, servicePort);
    var bs := BackendSetName(cluster, ing.namespace, p.service.name, servicePort);
    var tls := CollectTlsInputs(ing, p.host, secrets);
    r := RecordPath(b, Visit(ing, p, port, bs, tls));
  }

  // ---- One ingress -----------------------------------------------------------------------

  /** Paths without a service backend are skipped. */
  method AddRule(cluster: Cluster, ing: Ingress, hosts: set<string>, secrets: map<string, string>,
                 host: string, paths: seq<Path>, b: Builder)
    returns (r: Result<Builder, BuildError>)
    requires hosts == CountedTlsHosts(ing) && secrets == CountedSecrets(ing)
    ensures r == Folding.Fold(PathStepper(cluster, ing), b, RulePaths(host, paths))
  {
    var next := b;
    ghost var step := PathStepper(cluster, ing);
    assert paths[0..] == paths;
    for j := 0 to |paths|
      invariant Folding.Fold(step, b, RulePaths(host, paths)) == Folding.Fold(step, next, RulePaths(host, paths[j..]))
    {
      assert paths[j..][0] == paths[j] && paths[j..][1..] == paths[j + 1..];
      Folding.FoldConcat(step, next, Backed(host, paths[j]), RulePaths(host, paths[j + 1..]));
      if paths[j].service.None? {
        continue;
      }
      var p := BackedPath(host, paths[j], paths[j].service.value);
      Folding.FoldOne(step, next, p);
      next :- AddPath(cluster, ing, hosts, secrets, p, next);
    }
    return Ok(next);
  }

  /** Rules without paths are skipped. */
  method AddIngress(cluster: Cluster, ing: Ingress, b: Builder) returns (r: Result<Builder, BuildError>)
    ensures r == IngressStepper(cluster)(b, ing)
  {
    var next :- Begin(b, ing);
    var hosts, secrets := CollectTlsHosts(ing);
    ghost var step, start := PathStepper(cluster, ing), next;
    assert ing.rules[0..] == ing.rules;
    for i := 0 to |ing.rules|
      invariant Folding.Fold(step, start, BackedPaths(ing.rules)) == Folding.Fold(step, next, BackedPaths(ing.rules[i..]))
    {
      var rule := ing.rules[i];
      assert ing.rules[i..][0] == rule && ing.rules[i..][1..] == ing.rules[i + 1..];
      Folding.FoldConcat(step, next, PathsOfRule(rule), BackedPaths(ing.rules[i + 1..]));
      if rule.paths.Some? {
        next :- AddRule(cluster, ing, hosts, secrets, rule.host, rule.paths.value, next);
      }
    }
    return Ok(End(next, ing));
  }

  lemma PathKeepsIngresses(cluster: Cluster, ing: Ingress, b: Builder, p: BackedPath)
    ensures PathStep(cluster, ing, b, p).Ok? ==> PathStep(cluster, ing, b, p).value.ingresses == b.ingresses
  {
  }

  lemma PathsKeepIngresses(cluster: Cluster, ing: Ingress, b: Builder, paths: seq<BackedPath>)
    ensures var r := Folding.Fold(PathStepper(cluster, ing), b, paths);
      r.Ok? ==> r.value.ingresses == b.ingresses
  {
    var step, holds := PathStepper(cluster, ing), (x: Builder) => x.ingresses == b.ingresses;
    forall x, p | holds(x) && step(x, p).Ok? ensures holds(step(x, p).value) {
      PathKeepsIngresses(cluster, ing, x, p);
    }
    Folding.FoldKeeps(step, holds, b, paths);
  }

  lemma IngressStepRecords(cluster: Cluster, b: Builder, ing: Ingress)
    ensures var r := IngressStepper(cluster)(b, ing);
      r.Ok? ==> r.value.ingresses == b.ingresses[ing.Key() := IngressState(r.value.sets, r.value.ports)]
  {
    if Begin(b, ing).Ok? {
      PathsKeepIngresses(cluster, ing, Begin(b, ing).value, BackedPaths(ing.rules));
    }
  }

  // ---- After the last ingress ------------------------------------------------------------

  method ListenerConfigs(candidates: seq<TlsCandidate>) returns (configs: seq<TlsConfig>)
    ensures configs == ListenerTlsConfigs(candidates)
  {
    var sorted := Sorting.Sort(TlsCandidateLess, candidates);
    configs := Dedupe.KeepFirst(Sorting.Map(ConfigOf, sorted));
  }

  method BuildListenerTlsConfigMap(m: map<int, seq<TlsCandidate>>) returns (r: map<int, seq<TlsConfig>>)
    ensures r == ListenerTlsMap(m)
  {
    r := map[];
    var ports := Sorting.List(m.Keys);
    for i := 0 to |ports|
      invariant forall p :: p in r <==> p in m && p in ports[..i] && ListenerTlsConfigs(m[p]) != []
      invariant forall p :: p in r ==> r[p] == ListenerTlsConfigs(m[p])
    {
      var configs := ListenerConfigs(m[ports[i]]);
      assert ports[..i + 1] == ports[..i] + [ports[i]];
      if |configs| > 0 {
        r := r[ports[i] := configs];
      }
    }
    assert ports[..|ports|] == ports;
    ghost var expected := ListenerTlsMap(m);
    forall p: int ensures p in r <==> p in expected {
      assert p in m <==> p in ports;
    }
    assert r.Keys == expected.Keys;
    forall p | p in expected ensures r[p] == expected[p] {
      assert p in r;
    }
  }

  method MergeSortedTargets<K(==)>(decode: string -> TlsPolicy.Document, keys: seq<K>,
                                   candidates: map<K, seq<TlsPolicy.Candidate>>, active: set<K>)
    returns (r: Result<map<K, TlsPolicy.ExplicitPolicy>, (K, TlsPolicy.MergeError)>)
    requires forall k :: k in keys ==> k in candidates
    ensures r == MergeTargets(decode, keys, candidates, active)
  {
    var policies := map[];
    for i := 0 to |keys|
      invariant MergeTargets(decode, keys[..i], candidates, active) == Ok(policies)
    {
      ghost var prefix := keys[..i + 1];
      assert prefix[..i] == keys[..i] && prefix[i] == keys[i];
      if keys[i] !in active {
        continue;
      }
      var policy := TlsPolicy.MergeExplicitTlsPolicyCandidates(decode, candidates[keys[i]]);
      if policy.Err? {
        MergeFailsEarly(decode, keys, candidates, active, i + 1);
        return Err((keys[i], policy.error));
      }
      if policy.value.Some? {
        policies := policies[keys[i] := policy.value.value];
      }
    }
    assert keys[..|keys|] == keys;
    return Ok(policies);
  }

  lemma {:induction false} MergeFailsEarly<K>(decode: string -> TlsPolicy.Document, keys: seq<K>,
                                              candidates: map<K, seq<TlsPolicy.Candidate>>, active: set<K>, n: nat)
    requires forall k :: k in keys ==> k in candidates
    requires n <= |keys| && MergeTargets(decode, keys[..n], candidates, active).Err?
    ensures MergeTargets(decode, keys, candidates, active) == MergeTargets(decode, keys[..n], candidates, active)
    decreases |keys|
  {
    if n == |keys| {
      assert keys[..n] == keys;
    } else {
      var shorter := keys[..|keys| - 1];
      assert shorter[..n] == keys[..n];
      MergeFailsEarly(decode, shorter, candidates, active, n);
    }
  }

  method SortedNames(names: set<string>) returns (r: seq<string>)
    ensures r == Sorting.Sort(Lt, Sorting.Listing(names))
  {
    r := Sorting.List(names);
    Sorting.StringOrder(names);
    Sorting.ListingSorted(Lt, names, r);
    r := Sorting.Sort(Lt, r);
  }

  method SortedNumbers(ports: set<int>) returns (r: seq<int>)
    ensures r == Sorting.Sort(Sorting.IntLess, Sorting.Listing(ports))
  {
    r := Sorting.List(ports);
    Sorting.IntOrder(ports);
    Sorting.ListingSorted(Sorting.IntLess, ports, r);
    r := Sorting.Sort(Sorting.IntLess, r);
  }

  method AssembleState(cluster: Cluster, b: Builder) returns (r: Result<Built, BuildError>)
    ensures r == Assemble(cluster, b)
  {
    var listenerTls := BuildListenerTlsConfigMap(b.tlsCandidates);
    var ports := SortedNumbers(b.listenerPolicies.Keys);
    assert ports == SortedPorts(b.listenerPolicies);
    var listenerPolicies := MergeSortedTargets(cluster.decode, ports, b.listenerPolicies, listenerTls.Keys);
    if listenerPolicies.Err? {
      return Err(ListenerTlsPolicyError(listenerPolicies.error.0, listenerPolicies.error.1));
    }
    var names := SortedNames(b.backendSetPolicies.Keys);
    assert names == SortedKeys(b.backendSetPolicies);
    var active := ActiveBackendSets(b.backendTlsConfigs);
    var backendSetPolicies := MergeSortedTargets(cluster.decode, names, b.backendSetPolicies, active);
    if backendSetPolicies.Err? {
      return Err(BackendSetTlsPolicyError(backendSetPolicies.error.0, backendSetPolicies.error.1));
    }
    var group := ClassState(b.backendSets, b.listeners, b.protocols, b.defaults,
                            map p | p in b.idle :: b.idle[p].timeout,
                            b.reach, b.checkers, b.policies, b.sessions, b.backendTlsConfigs,
                            backendSetPolicies.value, listenerTls, listenerPolicies.value);
    return Ok(Built(group, b.ingresses));
  }

  method FilterGroup(ic: IngressClass, ings: seq<Ingress>) returns (selected: seq<Ingress>)
    ensures selected == Group(ic, ings)
  {
    selected := [];
    assert ings[0..] == ings;
    for i := 0 to |ings|
      invariant Group(ic, ings) == selected + Group(ic, ings[i..])
    {
      assert ings[i..][0] == ings[i] && ings[i..][1..] == ings[i + 1..];
      ghost var rest := Group(ic, ings[i + 1..]);
      if Counts(ic, ings[i]) {
        assert selected + ([ings[i]] + rest) == (selected + [ings[i]]) + rest;
        selected := selected + [ings[i]];
      } else {
        assert [] + rest == rest;
      }
    }
  }

  class StateStore {
    var group: ClassState
    var ingresses: map<string, IngressState>

    constructor ()
      ensures ingresses == map[]
    {
      group := ClassState({}, {}, map[], map[], map[], map[], map[], map[], map[], map[], map[], map[], map[]);
      ingresses := map[];
    }

    /** Process one ingress and record its state under its key. */
    method AddOne(cluster: Cluster, ing: Ingress, ghost before: map<string, IngressState>, b: Builder)
      returns (r: Result<Builder, BuildError>)
      requires ingresses == before + b.ingresses
      modifies this`ingresses
      ensures r == IngressStepper(cluster)(b, ing)
      ensures ingresses == match r case Ok(next) => before + next.ingresses case Err(_) => old(ingresses)
    {
      IngressStepRecords(cluster, b, ing);
      r := AddIngress(cluster, ing, b);
      if r.Ok? {
        MergeUpdate(before, b.ingresses, ing.Key(), IngressState(r.value.sets, r.value.ports));
        ingresses := ingresses[ing.Key() := IngressState(r.value.sets, r.value.ports)];
      }
    }

    method AddAll(cluster: Cluster, selected: seq<Ingress>) returns (r: Result<Builder, BuildError>)
      modifies this`ingresses
      ensures r == Folding.Fold(IngressStepper(cluster), EMPTY, selected)
      ensures old(ingresses).Keys <= ingresses.Keys
      ensures r.Ok? ==> ingresses == old(ingresses) + r.value.ingresses
    {
      var b := EMPTY;
      ghost var step := IngressStepper(cluster);
      assert selected[0..] == selected;
      for i := 0 to |selected|
        invariant Folding.Fold(step, EMPTY, selected) == Folding.Fold(step, b, selected[i..])
        invariant ingresses == old(ingresses) + b.ingresses
      {
        assert selected[i..] == [selected[i]] + selected[i + 1..];
        Folding.FoldConcat(step, b, [selected[i]], selected[i + 1..]);
        Folding.FoldOne(step, b, selected[i]);
        b :- AddOne(cluster, selected[i], old(ingresses), b);
      }
      return Ok(b);
    }

    /** Fill the store for a class. A failed build leaves the class state alone; per-ingress
        states are recorded as ingresses are processed and never removed. */
    method BuildState(cluster: Cluster, ic: IngressClass, ings: seq<Ingress>) returns (r: Result<(), BuildError>)
      modifies this
      ensures match Build(cluster, ic, ings)
        case Err(e) => r == Err(e) && group == old(group) && old(ingresses).Keys <= ingresses.Keys
        case Ok(built) => r == Ok(()) && group == built.group && ingresses == old(ingresses) + built.ingresses
    {
      var selected := FilterGroup(ic, ings);
      selected := Sorting.Sort(IngressLess, selected);
      var b :- AddAll(cluster, selected);
      AssembleKeepsIngresses(cluster, b);
      var built :- AssembleState(cluster, b);
      group := built.group;
      return Ok(());
    }
  }

  lemma MergeUpdate<K, V>(a: map<K, V>, b: map<K, V>, k: K, v: V)
    ensures a + b[k := v] == (a + b)[k := v]
  {
  }

  lemma AssembleKeepsIngresses(cluster: Cluster, b: Builder)
    ensures Assemble(cluster, b).Ok? ==> Assemble(cluster, b).value.ingresses == b.ingresses
  {
  }
}
