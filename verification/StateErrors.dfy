/** Every error of the state builder names something that is wrong: an ingress or path that is faulty in
    itself, or two that clash over the target named. */
module StateErrors {
  import opened Wrappers
  import opened Ingresses
  import opened StateBuilder
  import opened StateFacts
  import opened StateTheorems
  import Folding
  import Sorting
  import TlsPolicy

  /** The path is faulty in itself. */
  predicate Faulty(v: Visit, e: BuildError) {
    match e
    case BadIdleTimeout => IdleOf(v.ing).Err?
    case BadHealthChecker(message) => CheckerOf(v) == Err(message)
    case BadSession(namespace, name) => SessionOf(v.ing).Err? && v.ing.namespace == namespace && v.ing.name == name
    case _ => false
  }

  /** Two paths of the target that the error names, `u` before `v`, differ in what it complains of. */
  predicate Clash(u: Visit, v: Visit, e: BuildError) {
    match e
    case ProtocolConflict(port) => u.port == v.port == port && Protocol(u.ing) != Protocol(v.ing)
    case DefaultBackendSetConflict(port) => u.port == v.port == port && DefaultOf(u) != DefaultOf(v)
    case IdleTimeoutConflict(port, ownerNamespace, ownerName, owned, namespace, name, timeout) =>
      u.port == v.port == port && IdleOf(u.ing) == Ok(Some(owned)) && IdleOf(v.ing) == Ok(Some(timeout)) && owned != timeout
      && u.ing.namespace == ownerNamespace && u.ing.name == ownerName
      && v.ing.namespace == namespace && v.ing.name == name
    case HealthCheckerConflict(bs) => u.bs == v.bs == bs && CheckerOf(v) != Ok(DEFAULT_CHECKER) && CheckerOf(u) != CheckerOf(v)
    case PolicyConflict(bs) => u.bs == v.bs == bs && BackendPolicy(u.ing) != BackendPolicy(v.ing)
    case BackendTlsEnabledConflict(bs) => u.bs == v.bs == bs && u.ing.notes.backendTls != v.ing.notes.backendTls
    case BackendTlsArtifactConflict(bs) =>
      u.bs == v.bs == bs && u.ing.notes.backendTls && v.ing.notes.backendTls && BringsTls(u) && BringsTls(v)
      && BackendInput(u) != BackendInput(v)
    case _ => false
  }

  ghost predicate Explains(vs: seq<Visit>, v: Visit, e: BuildError) {
    Faulty(v, e) || exists u :: u in vs && Clash(u, v, e)
  }

  // ---- One path --------------------------------------------------------------------------

  /** If the check failed, there is a reason. */
  ghost predicate Explained<M>(vs: seq<Visit>, v: Visit, check: Result<M, BuildError>) {
    check.Err? ==> Explains(vs, v, check.error)
  }

  lemma PortChecksFail(vs: seq<Visit>, b: Builder, v: Visit)
    requires ProtocolsHold(vs, b.protocols) && DefaultsHold(vs, b.defaults)
    ensures Explained(vs, v, CheckProtocol(b.protocols, v)) && Explained(vs, v, CheckDefault(b.defaults, v))
  {
    KeysMember(vs, Any, PortOf, v.port);
    if u :| u in vs && Any(u) && PortOf(u) == v.port {
      assert CheckProtocol(b.protocols, v).Err? ==> Clash(u, v, CheckProtocol(b.protocols, v).error);
      assert CheckDefault(b.defaults, v).Err? ==> Clash(u, v, CheckDefault(b.defaults, v).error);
    }
  }

  lemma IdleCheckFails(vs: seq<Visit>, m: map<int, IdleTimeout>, v: Visit)
    requires IdleRecorded(vs, m)
    ensures Explained(vs, v, CheckIdle(m, v))
  {
    if CheckIdle(m, v).Err? && IdleOf(v.ing).Ok? {
      var u :| u in vs && Recorded(u, v.port, m[v.port]);
      assert Clash(u, v, CheckIdle(m, v).error);
    }
  }

  lemma CheckerFails(vs: seq<Visit>, m: map<string, HealthChecker>, v: Visit)
    requires CheckersHold(vs, m) && Consistent(vs) && v.bs != DEFAULT_BACKEND_SET
    ensures Explained(vs, v, CheckHealthChecker(m, v))
  {
    if CheckHealthChecker(m, v).Err? && CheckerOf(v).Ok? {
      LastCheckerDecides(vs, v.bs);
      var u :| u in vs && u.bs == v.bs && LastChecker(vs, v.bs) == Some(CheckerOf(u));
      assert Clash(u, v, CheckHealthChecker(m, v).error);
    }
  }

  lemma PolicyCheckFails(vs: seq<Visit>, m: map<string, string>, v: Visit)
    requires PoliciesHold(vs, m) && v.bs != DEFAULT_BACKEND_SET
    ensures Explained(vs, v, CheckPolicy(m, v))
  {
    if CheckPolicy(m, v).Err? {
      KeysMember(vs, Any, SetOf, v.bs);
      var u :| u in vs && Any(u) && SetOf(u) == v.bs;
      assert Clash(u, v, CheckPolicy(m, v).error);
    }
  }

  lemma SessionCheckFails(vs: seq<Visit>, m: map<string, Session>, v: Visit)
    ensures Explained(vs, v, CheckSession(m, v))
  {
    assert CheckSession(m, v).Err? ==> Faulty(v, CheckSession(m, v).error);
  }

  lemma BackendTlsCheckFails(vs: seq<Visit>, m: map<string, BackendTls>, v: Visit)
    requires BackendTlsHolds(vs, m)
    ensures Explained(vs, v, CheckBackendTls(m, v))
  {
    if CheckBackendTls(m, v).Err? {
      var e := CheckBackendTls(m, v).error;
      KeysMember(vs, Any, SetOf, v.bs);
      KeysMember(vs, BringsTls, SetOf, v.bs);
      if e.BackendTlsEnabledConflict? {
        var u :| u in vs && Any(u) && SetOf(u) == v.bs;
        assert Clash(u, v, e);
      } else {
        var u :| u in vs && BringsTls(u) && SetOf(u) == v.bs;
        assert Clash(u, v, e);
      }
    }
  }

  ghost predicate AllExplained(vs: seq<Visit>, b: Builder, v: Visit) {
    Explained(vs, v, CheckProtocol(b.protocols, v)) && Explained(vs, v, CheckDefault(b.defaults, v)) && Explained(vs, v, CheckIdle(b.idle, v))
    && Explained(vs, v, CheckHealthChecker(b.checkers, v)) && Explained(vs, v, CheckPolicy(b.policies, v))
    && Explained(vs, v, CheckSession(b.sessions, v)) && Explained(vs, v, CheckBackendTls(b.backendTls, v))
  }

  lemma ChecksAreExplained(vs: seq<Visit>, b: Builder, v: Visit)
    requires Describes(vs, b) && v.bs != DEFAULT_BACKEND_SET
    ensures AllExplained(vs, b, v)
  {
    PortChecksFail(vs, b, v);
    IdleCheckFails(vs, b.idle, v);
    CheckerFails(vs, b.checkers, v);
    PolicyCheckFails(vs, b.policies, v);
    SessionCheckFails(vs, b.sessions, v);
    BackendTlsCheckFails(vs, b.backendTls, v);
  }

  lemma StepFails(vs: seq<Visit>, b: Builder, v: Visit)
    requires AllExplained(vs, b, v) && VisitStep(b, v).Err?
    ensures Explains(vs, v, VisitStep(b, v).error)
  {
    StepErrors(b, v);
  }

  lemma StepErrors(b: Builder, v: Visit)
    requires VisitStep(b, v).Err?
    ensures var e := VisitStep(b, v).error;
      CheckProtocol(b.protocols, v) == Err(e) || CheckDefault(b.defaults, v) == Err(e) || CheckIdle(b.idle, v) == Err(e)
      || CheckHealthChecker(b.checkers, v) == Err(e) || CheckPolicy(b.policies, v) == Err(e)
      || CheckSession(b.sessions, v) == Err(e) || CheckBackendTls(b.backendTls, v) == Err(e)
  {
  }

  // ---- The whole class -------------------------------------------------------------------

  /** The annotations for the shared default backend set are faulty in themselves. */
  predicate OwnerFaulty(ing: Ingress, e: BuildError) {
    OwnsDefaultChecker(ing)
    && match e
       case DefaultCheckerNeedsDefaultBackend => !ing.hasDefaultBackend
       case BadDefaultChecker(namespace, name, message) =>
         ing.notes.defaultHealthChecker == Some(Err(message)) && ing.namespace == namespace && ing.name == name
       case _ => false
  }

  /** Two ingresses carry them, the first of which is named. */
  ghost predicate OwnersClash(group: seq<Ingress>, e: BuildError) {
    e.DefaultCheckerConflict?
    && exists i, j ::
         0 <= i < j < |group| && OwnsDefaultChecker(group[i]) && OwnsDefaultChecker(group[j])
         && group[i].namespace == e.namespace && group[i].name == e.name
  }

  ghost predicate PathUnresolved(cluster: Cluster, group: seq<Ingress>, e: BuildError) {
    exists ing, p :: ing in group && p in BackedPaths(ing.rules) && ResolveFor(cluster, ing, p) == Err(e)
  }

  ghost predicate VisitsAtFault(vs: seq<Visit>, e: BuildError) {
    (exists v :: v in vs && Faulty(v, e)) || exists u, v :: u in vs && v in vs && Clash(u, v, e)
  }

  /** The TLS policy annotations of an active target do not merge. */
  ghost predicate NotesAtFault(cluster: Cluster, vs: seq<Visit>, e: BuildError) {
    match e
    case ListenerTlsPolicyError(port, merge) =>
      Artifacts(vs, port) != {} && TlsPolicy.Merged(cluster.decode, PolicyNotes(vs, PortOf, port, ListenerCandidate)) == Err(merge)
    case BackendSetTlsPolicyError(bs, merge) =>
      (exists v :: v in vs && v.bs == bs && UsesBackendTls(v))
      && TlsPolicy.Merged(cluster.decode, PolicyNotes(vs, SetOf, bs, BackendSetCandidate)) == Err(merge)
    case _ => false
  }

  ghost predicate Caused(cluster: Cluster, group: seq<Ingress>, e: BuildError) {
    PathUnresolved(cluster, group, e)
    || VisitsAtFault(GroupVisits(cluster, group), e)
    || (exists ing :: ing in group && OwnerFaulty(ing, e))
    || OwnersClash(group, e)
    || NotesAtFault(cluster, GroupVisits(cluster, group), e)
  }

  lemma VisitsAreInGroup(cluster: Cluster, group: seq<Ingress>, n: nat, k: nat, u: Visit)
    requires n < |group| && k <= |BackedPaths(group[n].rules)|
    requires u in GroupVisits(cluster, group[..n]) + PathVisits(cluster, group[n], BackedPaths(group[n].rules)[..k])
    ensures u in GroupVisits(cluster, group)
  {
    GroupVisitsMember(cluster, group, u);
    if u in GroupVisits(cluster, group[..n]) {
      GroupVisitsMember(cluster, group[..n], u);
    } else {
      PathVisitsMember(cluster, group[n], BackedPaths(group[n].rules)[..k], u);
      PathVisitsMember(cluster, group[n], BackedPaths(group[n].rules), u);
      assert group[n] in group;
    }
  }

  /** A failure at the path `k` of the ingress `n`. */
  lemma PathFails(cluster: Cluster, group: seq<Ingress>, n: nat, k: nat, b0: Builder, b: Builder)
    requires n < |group| && k < |BackedPaths(group[n].rules)|
    requires var paths := BackedPaths(group[n].rules);
      PathsDone(cluster, group[n], GroupVisits(cluster, group[..n]), b0, paths[..k], b) && PathStep(cluster, group[n], b, paths[k]).Err?
    ensures Caused(cluster, group, PathStep(cluster, group[n], b, BackedPaths(group[n].rules)[k]).error)
  {
    var ing, paths := group[n], BackedPaths(group[n].rules);
    var vs := GroupVisits(cluster, group[..n]) + PathVisits(cluster, ing, paths[..k]);
    var r, e := ResolveFor(cluster, ing, paths[k]), PathStep(cluster, ing, b, paths[k]).error;
    assert ing in group && paths[k] in paths;
    if r.Ok? {
      var v := r.value;
      LocatedIsNotDefault(cluster, ing, paths[k]);
      assert VisitStep(b, v) == Err(e);
      ChecksAreExplained(vs, b, v);
      StepFails(vs, b, v);
      PathVisitsMember(cluster, ing, paths, v);
      GroupVisitsMember(cluster, group, v);
      if u :| u in vs && Clash(u, v, e) {
        VisitsAreInGroup(cluster, group, n, k, u);
      }
    }
  }

  /** A failure of the ingress `n`. */
  lemma IngressFails(cluster: Cluster, group: seq<Ingress>, n: nat, b: Builder)
    requires n < |group| && GroupDone(cluster, group[..n], b) && IngressStep(cluster, b, group[n]).Err?
    ensures Caused(cluster, group, IngressStep(cluster, b, group[n]).error)
  {
    var ing, vs, e := group[n], GroupVisits(cluster, group[..n]), IngressStep(cluster, b, group[n]).error;
    assert ing in group;
    if Begin(b, ing).Err? {
      BeginFails(group, n, b);
    } else {
      var b0, paths, step := Begin(b, ing).value, BackedPaths(ing.rules), PathStepper(cluster, ing);
      BeginDescribes(b, ing, group[..n], vs);
      var k := Folding.FoldFailure(step, b0, paths);
      FoldPathsDescribes(cluster, b0, ing, paths[..k], vs);
      PathFails(cluster, group, n, k, b0, Folding.Fold(step, b0, paths[..k]).value);
    }
  }

  lemma BeginFails(group: seq<Ingress>, n: nat, b: Builder)
    requires n < |group| && OwnerHolds(group[..n], b) && Begin(b, group[n]).Err?
    ensures OwnerFaulty(group[n], Begin(b, group[n]).error) || OwnersClash(group, Begin(b, group[n]).error)
  {
    if !OwnerFaulty(group[n], Begin(b, group[n]).error) {
      var i :| 0 <= i < n && group[i] == b.checkerOwner.value;
    }
  }

  lemma {:induction false} MergeFailure<K>(decode: string -> TlsPolicy.Document, keys: seq<K>, candidates: map<K, seq<TlsPolicy.Candidate>>, active: set<K>)
    requires forall k :: k in keys ==> k in candidates
    requires MergeTargets(decode, keys, candidates, active).Err?
    ensures var (k, e) := MergeTargets(decode, keys, candidates, active).error;
      k in candidates && k in active && TlsPolicy.Merged(decode, candidates[k]) == Err(e)
    decreases |keys|
  {
    var n := |keys| - 1;
    if MergeTargets(decode, keys[..n], candidates, active).Err? {
      MergeFailure(decode, keys[..n], candidates, active);
    }
  }

  lemma AssembleFails(cluster: Cluster, vs: seq<Visit>, b: Builder)
    requires Describes(vs, b) && Assemble(cluster, b).Err?
    ensures NotesAtFault(cluster, vs, Assemble(cluster, b).error)
  {
    var active := ListenerTlsMap(b.tlsCandidates).Keys;
    if MergeTargets(cluster.decode, SortedPorts(b.listenerPolicies), b.listenerPolicies, active).Err? {
      MergeFailure(cluster.decode, SortedPorts(b.listenerPolicies), b.listenerPolicies, active);
      ListenerNotes(vs, b, Assemble(cluster, b).error.port);
    } else {
      var used := ActiveBackendSets(b.backendTlsConfigs);
      MergeFailure(cluster.decode, SortedKeys(b.backendSetPolicies), b.backendSetPolicies, used);
      var bs := Assemble(cluster, b).error.backendSet;
      ActiveDescribes(vs, b.backendTlsConfigs, bs);
      assert At(b.backendSetPolicies, bs) == PolicyNotes(vs, SetOf, bs, BackendSetCandidate);
    }
  }

  /** Whenever the builder fails, its error has a cause among the ingresses: a path that does not resolve,
      something faulty, two paths of the named target that differ, two owners of the default health
      check, or the annotations of an active target that do not merge. */
  lemma ErrorsHaveCauses(cluster: Cluster, ic: IngressClass, ings: seq<Ingress>)
    requires Build(cluster, ic, ings).Err?
    ensures Caused(cluster, SortedGroup(ic, ings), Build(cluster, ic, ings).error)
  {
    var group, step := SortedGroup(ic, ings), IngressStepper(cluster);
    var r := Folding.Fold(step, EMPTY, group);
    if r.Err? {
      var n := Folding.FoldFailure(step, EMPTY, group);
      FoldGroupDescribes(cluster, group[..n]);
      IngressFails(cluster, group, n, Folding.Fold(step, EMPTY, group[..n]).value);
    } else {
      FoldGroupDescribes(cluster, group);
      AssembleFails(cluster, GroupVisits(cluster, group), r.value);
    }
  }
}
