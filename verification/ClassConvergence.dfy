/** Convergence, from ingress objects to the load balancer: the passes of the controllers over a class,
    and what they converge to. */
module ClassConvergence {
  import opened Wrappers
  import opened Ingresses
  import opened LoadBalancers
  import opened Reconcile
  import opened StateBuilder
  import opened StateFacts
  import opened StateTheorems
  import opened DesiredState
  import opened LoadBalancerClient
  import opened IngressController
  import opened RoutingController
  import opened Convergence
  import RoutingAgreement
  import RoutingRules
  import Sorting
  import TlsPolicy

  // ---- From ingresses ---------------------------------------------------------------------

  /** Every ingress of the group has its turn, in any order, and perhaps more than one. */
  ghost predicate Turns(group: seq<Ingress>, order: seq<Ingress>) {
    (forall ing :: ing in group ==> ing in order) && forall ing :: ing in order ==> ing in group
  }

  /** One step of the pass per turn, with the part the builder records for the ingress. */
  ghost predicate StepsFor(built: Built, order: seq<Ingress>, steps: seq<PassStep>) {
    |steps| == |order| && forall i :: 0 <= i < |order| ==> steps[i].own == RecordedFor(built.ingresses, order[i])
  }

  ghost predicate OwnSteps(cluster: Cluster, order: seq<Ingress>, steps: seq<PassStep>) {
    |steps| == |order| && forall i :: 0 <= i < |order| ==> steps[i].own == OwnState(cluster, order[i])
  }

  lemma SomebodyOwnsTheSet(cluster: Cluster, group: seq<Ingress>, order: seq<Ingress>, steps: seq<PassStep>, n: string)
    requires OwnSteps(cluster, order, steps) && Turns(group, order) && group != []
    requires n in {DEFAULT_BACKEND_SET} + Sets(GroupVisits(cluster, group))
    ensures exists i :: 0 <= i < |steps| && n in steps[i].own.backendSets
  {
    if n == DEFAULT_BACKEND_SET {
      assert group[0] in order;
      assert n in steps[0].own.backendSets;
    } else {
      KeysMember(GroupVisits(cluster, group), Any, SetOf, n);
      var v :| v in GroupVisits(cluster, group) && Any(v) && SetOf(v) == n;
      var i := IndexOf(cluster, group, order, v);
      KeysMember(Visits(cluster, order[i]), Any, SetOf, n);
      assert n in steps[i].own.backendSets;
    }
  }

  lemma SomebodyOwnsThePort(cluster: Cluster, group: seq<Ingress>, order: seq<Ingress>, steps: seq<PassStep>, p: int)
    requires OwnSteps(cluster, order, steps) && Turns(group, order) && p in Ports(GroupVisits(cluster, group))
    ensures exists i :: 0 <= i < |steps| && p in steps[i].own.ports
  {
    KeysMember(GroupVisits(cluster, group), Any, PortOf, p);
    var v :| v in GroupVisits(cluster, group) && Any(v) && PortOf(v) == p;
    var i := IndexOf(cluster, group, order, v);
    KeysMember(Visits(cluster, order[i]), Any, PortOf, p);
    assert p in steps[i].own.ports;
  }

  /** The parts of the ingresses make up the class. */
  lemma IngressesCoverTheClass(cluster: Cluster, ic: IngressClass, ings: seq<Ingress>, order: seq<Ingress>, steps: seq<PassStep>,
                               certificate: CertificateOf, authority: AuthorityOf)
    requires Build(cluster, ic, ings).Ok? && UniqueKeys(SortedGroup(ic, ings)) && SortedGroup(ic, ings) != []
    requires Turns(SortedGroup(ic, ings), order) && StepsFor(Build(cluster, ic, ings).value, order, steps)
    ensures Covers(DesiredOf(Build(cluster, ic, ings).value.group, certificate, authority), steps)
  {
    var group, c := SortedGroup(ic, ings), Build(cluster, ic, ings).value.group;
    var d := DesiredOf(c, certificate, authority);
    RecordedAreOwnStates(cluster, ic, ings);
    RoutingAgreement.BuiltForRouting(cluster, ic, ings);
    forall n | n in d.sets ensures exists i :: 0 <= i < |steps| && n in steps[i].own.backendSets {
      SomebodyOwnsTheSet(cluster, group, order, steps, n);
    }
    forall p | p in d.listeners ensures exists i :: 0 <= i < |steps| && p in steps[i].own.ports {
      SomebodyOwnsThePort(cluster, group, order, steps, p);
    }
  }

  lemma RecordedAreOwnStates(cluster: Cluster, ic: IngressClass, ings: seq<Ingress>)
    requires Build(cluster, ic, ings).Ok? && UniqueKeys(SortedGroup(ic, ings))
    ensures forall ing :: ing in SortedGroup(ic, ings) ==>
      RecordedFor(Build(cluster, ic, ings).value.ingresses, ing) == OwnState(cluster, ing)
  {
    BuildRefinesSpecification(cluster, ic, ings);
  }

  /** A turn of a path's ingress. */
  lemma IndexOf(cluster: Cluster, group: seq<Ingress>, order: seq<Ingress>, v: Visit) returns (i: int)
    requires v in GroupVisits(cluster, group) && Turns(group, order)
    ensures 0 <= i < |order| && order[i] == v.ing && v in Visits(cluster, order[i])
  {
    GroupVisitsMember(cluster, group, v);
    assert v.ing in order;
    i :| 0 <= i < |order| && order[i] == v.ing;
  }

  /** The rules of every routing policy of the class. */
  ghost function RoutesOf(cluster: Cluster, ic: IngressClass, ings: seq<Ingress>): Routes {
    match RoutingAgreement.Routes(cluster, RoutingAgreement.Selected(ic, ings))
    case Err(_) => map[]
    case Ok(m) => map n | n in m :: RoutingRules.Rules(cluster.digest, Sorting.Sort(RoutingRules.Less, m[n]))
  }

  lemma {:induction false} RulesComeFromEntries(digest: string -> string, s: seq<RoutingRules.Entry>, rule: RoutingRules.RoutingRule)
    requires rule in RoutingRules.Rules(digest, s)
    ensures exists e :: e in s && e.Some? && e.value.bs == rule.backendSet
  {
    if rule in RoutingRules.RuleOf(digest, s[0]) {
      assert s[0] in s;
    } else {
      RulesComeFromEntries(digest, s[1..], rule);
      var e :| e in s[1..] && e.Some? && e.value.bs == rule.backendSet;
      assert e in s;
    }
  }

  lemma RoutesAreGood(cluster: Cluster, ic: IngressClass, ings: seq<Ingress>, certificate: CertificateOf, authority: AuthorityOf)
    requires RoutingAgreement.Accepted(ic, ings) && Build(cluster, ic, ings).Ok?
    ensures RoutingAgreement.Routes(cluster, RoutingAgreement.Selected(ic, ings)).Ok?
    ensures GoodRoutes(DesiredOf(Build(cluster, ic, ings).value.group, certificate, authority), RoutesOf(cluster, ic, ings))
  {
    var c := Build(cluster, ic, ings).value.group;
    var d := DesiredOf(c, certificate, authority);
    RoutingAgreement.CompilersAgree(cluster, ic, ings);
    RoutingAgreement.BuiltForRouting(cluster, ic, ings);
    var m := RoutingAgreement.Routes(cluster, RoutingAgreement.Selected(ic, ings)).value;
    var routes: Routes := RoutesOf(cluster, ic, ings);
    forall n: string | n in routes
      ensures n in NamesOf(d.listeners.Keys) && forall i :: 0 <= i < |routes[n]| ==> routes[n][i].backendSet in d.sets
    {
      var p :| p in RoutingAgreement.RoutedPorts(c) && ListenerName(p) == n;
      assert p in d.listeners;
      var sorted := Sorting.Sort(RoutingRules.Less, m[n]);
      Sorting.SortPermutes(RoutingRules.Less, m[n]);
      Sorting.SameElements(sorted, m[n]);
      forall i | 0 <= i < |routes[n]| ensures routes[n][i].backendSet in d.sets {
        RulesComeFromEntries(cluster.digest, sorted, routes[n][i]);
        var e :| e in sorted && e.Some? && e.value.bs == routes[n][i].backendSet;
        assert RoutingAgreement.Backs(c, p, e);
      }
    }
  }

  /** Ingresses of a class that the builder accepts, with an accepted protocol each. */
  ghost predicate AcceptableClass(cluster: Cluster, ic: IngressClass, ings: seq<Ingress>) {
    Build(cluster, ic, ings).Ok? && RoutingAgreement.Accepted(ic, ings)
    && UniqueKeys(SortedGroup(ic, ings)) && SortedGroup(ic, ings) != [] && GoodAnnotations(SortedGroup(ic, ings))
  }

  /** What the ingresses call for. */
  ghost function Wanted(cluster: Cluster, ic: IngressClass, ings: seq<Ingress>, certificate: CertificateOf, authority: AuthorityOf): Desired
    requires Build(cluster, ic, ings).Ok?
  {
    DesiredOf(Build(cluster, ic, ings).value.group, certificate, authority)
  }

  lemma WantedIsGood(cluster: Cluster, ic: IngressClass, ings: seq<Ingress>, certificate: CertificateOf, authority: AuthorityOf)
    requires AcceptableClass(cluster, ic, ings)
    ensures WellFormed(Wanted(cluster, ic, ings, certificate, authority))
    ensures RoutingAgreement.Routes(cluster, RoutingAgreement.Selected(ic, ings)).Ok?
    ensures GoodRoutes(Wanted(cluster, ic, ings, certificate, authority), RoutesOf(cluster, ic, ings))
  {
    BuiltIsWellFormed(cluster, ic, ings, certificate, authority);
    RoutesAreGood(cluster, ic, ings, certificate, authority);
  }

  // ---- The controllers' passes --------------------------------------------------------------

  /** The routing policy controller, from ingress objects on. */
  method EnsureRoutesOf(c: Client, cluster: Cluster, ic: IngressClass, ings: seq<Ingress>) returns (r: Result<(), IngressError>)
    requires c.cache.Some? ==> c.Current()
    requires OwnPolicies(c.server)
    modifies c
    ensures (c.cache.Some? && c.dependable ==> c.Current()) && OwnPolicies(c.server) && Orderly(old(c.log), c.log)
    ensures SameButPolicies(old(c.server), c.server)
    ensures match RoutingAgreement.Routes(cluster, RoutingAgreement.Selected(ic, ings))
      case Err(e) => r == Err(BadConfiguration(e)) && c.server == old(c.server) && c.log == old(c.log)
      case Ok(_) =>
        (r.Ok? ==> RoutesEnsured(RoutesOf(cluster, ic, ings), old(c.server), c.server))
        && (c.dependable && Routable(RoutesOf(cluster, ic, ings), old(c.server)) ==> r.Ok?)
  {
    var selected := RoutingAgreement.FilterIngressesForRoutingPolicy(ic, ings);
    var paths, desired := RoutingAgreement.ProcessRoutingPolicy(cluster, selected);
    if paths.Err? {
      return Err(BadConfiguration(paths.error));
    }
    var routes := BuildAllRules(cluster.digest, paths.value);
    assert routes == RoutesOf(cluster, ic, ings);
    var done := EnsureRoutingRules(c, routes);
    r := match done case Ok(_) => Ok(()) case Err(e) => Err(Failed(e));
  }

  method BuildAllRules(digest: string -> string, paths: RoutingAgreement.Paths) returns (routes: Routes)
    ensures routes.Keys == paths.Keys
    ensures forall n :: n in paths ==> routes[n] == RoutingRules.Rules(digest, Sorting.Sort(RoutingRules.Less, paths[n]))
  {
    routes := map[];
    var names := Sorting.List(paths.Keys);
    for i := 0 to |names|
      invariant routes.Keys == Sorting.Elements(names[..i])
      invariant forall n :: n in routes ==> n in paths && routes[n] == RoutingRules.Rules(digest, Sorting.Sort(RoutingRules.Less, paths[n]))
    {
      Sorting.NextElement(names, i);
      var rules := RoutingRules.BuildRoutingRules(digest, paths[names[i]]);
      routes := routes[names[i] := rules];
    }
    assert names[..|names|] == names;
  }

  /** The backends an ingress creates its backend sets with. */
  type InitialOf = Ingress -> map<string, seq<Backend>>

  /** What has happened by some turn of a pass: nothing that was in the way has gone, nothing new is, and
      unless something was, all runs have gone through. */
  ghost predicate PassGoes(d: Desired, built: Built, order: seq<Ingress>, steps: seq<PassStep>, states: seq<LoadBalancer>, before: LoadBalancer, now: LoadBalancer) {
    Ready(now) && SameObstacles(d, before, now)
    && (ClassUnblocked(d, before) ==>
          StepsFor(built, order, steps) && Pass(d, steps, states) && states[0] == before && states[|steps|] == now)
  }

  /** What a turn comes to. */
  ghost predicate TurnTaken(d: Desired, step: PassStep, now: LoadBalancer, next: LoadBalancer) {
    Evolved(d, now, next) && (Ready(now) && ClassUnblocked(d, now) ==> Passed(d, step, now, next))
  }

  lemma OutcomeIsTurn(d: Desired, step: PassStep, now: LoadBalancer, log0: seq<Event>, ok: bool, ensured: bool, next: LoadBalancer, log: seq<Event>)
    requires RunOutcome(d, step.own, step.initial, true, now, log0, ok, ensured, step.mid, next, log)
    ensures TurnTaken(d, step, now, next)
  {
    if Ready(now) && ClassUnblocked(d, now) {
      assert Unblocked(d, step.own.backendSets + Managed(d, now), step.own.ports, now);
    }
  }

  lemma TurnKeepsObstacles(d: Desired, before: LoadBalancer, now: LoadBalancer, next: LoadBalancer)
    requires WellFormed(d) && Evolved(d, now, next) && Ready(now) && SameObstacles(d, before, now)
    ensures Ready(next) && SameObstacles(d, before, next)
    ensures ClassUnblocked(d, before) ==> ClassUnblocked(d, now)
  {
    EvolutionKeepsReady(d, now, next);
    ObstaclesStay(d, now, next);
  }

  /** A whole pass. */
  ghost predicate PassDone(d: Desired, steps: seq<PassStep>, states: seq<LoadBalancer>, before: LoadBalancer, after: LoadBalancer) {
    Ready(after) && SameObstacles(d, before, after)
    && (ClassUnblocked(d, before) ==> Pass(d, steps, states) && Covers(d, steps) && states[0] == before && states[|steps|] == after)
  }

  lemma TurnGoes(d: Desired, built: Built, order: seq<Ingress>, ing: Ingress, steps: seq<PassStep>, states: seq<LoadBalancer>, before: LoadBalancer,
                 step: PassStep, now: LoadBalancer, next: LoadBalancer)
    requires WellFormed(d) && PassGoes(d, built, order, steps, states, before, now)
    requires step.own == RecordedFor(built.ingresses, ing) && TurnTaken(d, step, now, next)
    ensures PassGoes(d, built, order + [ing], steps + [step], states + [next], before, next)
  {
    TurnKeepsObstacles(d, before, now, next);
    if ClassUnblocked(d, before) {
      PassGrows(d, steps, states, step, next);
    }
  }

  lemma PassGrows(d: Desired, steps: seq<PassStep>, states: seq<LoadBalancer>, step: PassStep, next: LoadBalancer)
    requires Pass(d, steps, states) && Passed(d, step, states[|steps|], next)
    ensures Pass(d, steps + [step], states + [next])
  {
    var ss, ws := steps + [step], states + [next];
    forall i | 0 <= i < |ss| ensures Passed(d, ss[i], ws[i], ws[i + 1]) {
      if i < |steps| { assert Passed(d, steps[i], states[i], states[i + 1]); }
    }
  }

  method TakeTurn(c: Client, cluster: Cluster, ic: IngressClass, ings: seq<Ingress>, certificate: CertificateOf, authority: AuthorityOf,
                  initial: map<string, seq<Backend>>, ing: Ingress)
    returns (ghost step: PassStep)
    requires c.dependable && (c.cache.Some? ==> c.Current())
    requires AcceptableClass(cluster, ic, ings) && ing in SortedGroup(ic, ings)
    modifies c
    ensures c.cache.Some? ==> c.Current()
    ensures step.own == RecordedFor(Build(cluster, ic, ings).value.ingresses, ing)
    ensures TurnTaken(Wanted(cluster, ic, ings, certificate, authority), step, old(c.server), c.server)
  {
    ghost var d, now, log0 := Wanted(cluster, ic, ings, certificate, authority), c.server, c.log;
    var r;
    ghost var ensured, mid;
    r, ensured, mid := EnsureIngress(c, cluster, ic, ings, ing, certificate, authority, initial);
    step := PassStep(RecordedFor(Build(cluster, ic, ings).value.ingresses, ing), initial, mid);
    OutcomeIsTurn(d, step, now, log0, r.Ok?, ensured, c.server, c.log);
  }

  /** The ingress controller has a turn with every ingress. A run that fails does not keep the others
      from theirs. */
  method RunPass(c: Client, cluster: Cluster, ic: IngressClass, ings: seq<Ingress>, certificate: CertificateOf, authority: AuthorityOf,
                 initial: InitialOf, order: seq<Ingress>)
    returns (ghost steps: seq<PassStep>, ghost states: seq<LoadBalancer>)
    requires c.dependable && (c.cache.Some? ==> c.Current()) && Ready(c.server)
    requires AcceptableClass(cluster, ic, ings) && Turns(SortedGroup(ic, ings), order)
    modifies c
    ensures c.cache.Some? ==> c.Current()
    ensures PassDone(Wanted(cluster, ic, ings, certificate, authority), steps, states, old(c.server), c.server)
  {
    ghost var d, built, before := Wanted(cluster, ic, ings, certificate, authority), Build(cluster, ic, ings).value, c.server;
    WantedIsGood(cluster, ic, ings, certificate, authority);
    steps, states := [], [c.server];
    PassStarts(d, built, c.server);
    for i := 0 to |order|
      invariant c.cache.Some? ==> c.Current()
      invariant PassGoes(d, built, order[..i], steps, states, before, c.server)
    {
      ghost var now := c.server;
      Sorting.OneMore(order, i);
      ghost var step := TakeTurn(c, cluster, ic, ings, certificate, authority, initial(order[i]), order[i]);
      TurnGoes(d, built, order[..i], order[i], steps, states, before, step, now, c.server);
      steps, states := steps + [step], states + [c.server];
    }
    assert order[..|order|] == order;
    OrderCovers(cluster, ic, ings, certificate, authority, order, steps, states, before, c.server);
  }

  lemma PassStarts(d: Desired, built: Built, lb: LoadBalancer)
    requires Ready(lb)
    ensures PassGoes(d, built, [], [], [lb], lb, lb)
  {
  }

  /** The last turn of a pass that goes through leaves no unwanted listener. */
  lemma ListenersAreWanted(d: Desired, steps: seq<PassStep>, states: seq<LoadBalancer>)
    requires Pass(d, steps, states) && steps != []
    ensures forall n :: n in states[|steps|].listeners ==> states[|steps|].listeners[n].port in d.listeners
  {
    var k := |steps| - 1;
    assert Passed(d, steps[k], states[k], states[k + 1]);
  }

  /** What a pass that goes through leaves can be routed. */
  lemma PassedIsRoutable(d: Desired, routes: Routes, steps: seq<PassStep>, states: seq<LoadBalancer>, before: LoadBalancer, after: LoadBalancer)
    requires WellFormed(d) && GoodRoutes(d, routes) && Ready(before) && ClassUnblocked(d, before)
    requires PassDone(d, steps, states, before, after)
    ensures Routable(routes, after)
  {
    PassSyncsAll(d, steps, states);
    assert exists i :: 0 <= i < |steps| && DEFAULT_BACKEND_SET in steps[i].own.backendSets;
    ListenersAreWanted(d, steps, states);
    SyncedIsRoutable(d, routes, after);
  }

  /** Convergence, from what the three passes come to. */
  lemma PassesConverge(d: Desired, routes: Routes, steps1: seq<PassStep>, states1: seq<LoadBalancer>, steps2: seq<PassStep>, states2: seq<LoadBalancer>,
                       before: LoadBalancer, mid: LoadBalancer, between: LoadBalancer, after: LoadBalancer)
    requires WellFormed(d) && GoodRoutes(d, routes) && Ready(before) && ClassUnblocked(d, before)
    requires PassDone(d, steps1, states1, before, mid) && PassDone(d, steps2, states2, between, after)
    requires Ready(between) && SameObstacles(d, mid, between) && RoutesEnsured(routes, mid, between)
    ensures Converged(d, routes, after)
  {
    ClassConverges(d, routes, steps1, states1, steps2, states2);
  }

  /** What is blocked at the start is not synced at the end. */
  lemma BlockedDoesNotConverge(d: Desired, routes: Routes, before: LoadBalancer, mid: LoadBalancer, between: LoadBalancer, after: LoadBalancer)
    requires WellFormed(d) && Ready(after) && !ClassUnblocked(d, before)
    requires SameObstacles(d, before, mid) && SameObstacles(d, mid, between) && SameObstacles(d, between, after)
    ensures !Converged(d, routes, after)
  {
    if Converged(d, routes, after) {
      SyncedIsUnblocked(d, after);
    }
  }

  lemma OrderCovers(cluster: Cluster, ic: IngressClass, ings: seq<Ingress>, certificate: CertificateOf, authority: AuthorityOf,
                    order: seq<Ingress>, steps: seq<PassStep>, states: seq<LoadBalancer>, before: LoadBalancer, now: LoadBalancer)
    requires AcceptableClass(cluster, ic, ings) && Turns(SortedGroup(ic, ings), order)
    requires PassGoes(Wanted(cluster, ic, ings, certificate, authority), Build(cluster, ic, ings).value, order, steps, states, before, now)
    ensures ClassUnblocked(Wanted(cluster, ic, ings, certificate, authority), before) ==>
      Covers(Wanted(cluster, ic, ings, certificate, authority), steps)
  {
    if ClassUnblocked(Wanted(cluster, ic, ings, certificate, authority), before) {
      IngressesCoverTheClass(cluster, ic, ings, order, steps, certificate, authority);
    }
  }

  /** The routing pass, between the two others. */
  method RunRoutingPass(c: Client, cluster: Cluster, ic: IngressClass, ings: seq<Ingress>, ghost d: Desired, ghost routes: Routes)
    requires c.dependable && (c.cache.Some? ==> c.Current()) && Ready(c.server)
    requires RoutingAgreement.Routes(cluster, RoutingAgreement.Selected(ic, ings)).Ok? && routes == RoutesOf(cluster, ic, ings)
    modifies c
    ensures (c.cache.Some? ==> c.Current()) && Ready(c.server) && SameObstacles(d, old(c.server), c.server)
    ensures Routable(routes, old(c.server)) ==> RoutesEnsured(routes, old(c.server), c.server)
  {
    ghost var mid := c.server;
    var routed := EnsureRoutesOf(c, cluster, ic, ings);
    RoutingKeepsObstacles(d, mid, c.server);
  }

  /** A pass over the ingresses in any order, a routing pass, and a second pass, with a server that
      refuses only what would break a reference: from every load balancer that the controllers can have
      left behind they lead to exactly the one the ingresses call for, if and only if nothing was blocked
      at the start. */
  method ConvergeClass(c: Client, cluster: Cluster, ic: IngressClass, ings: seq<Ingress>, certificate: CertificateOf, authority: AuthorityOf,
                       initial: InitialOf, first: seq<Ingress>, second: seq<Ingress>)
    requires c.dependable && (c.cache.Some? ==> c.Current()) && Ready(c.server)
    requires AcceptableClass(cluster, ic, ings) && Turns(SortedGroup(ic, ings), first) && Turns(SortedGroup(ic, ings), second)
    modifies c
    ensures Ready(c.server)
    ensures Converged(Wanted(cluster, ic, ings, certificate, authority), RoutesOf(cluster, ic, ings), c.server)
      <==> ClassUnblocked(Wanted(cluster, ic, ings, certificate, authority), old(c.server))
  {
    ghost var d, routes := Wanted(cluster, ic, ings, certificate, authority), RoutesOf(cluster, ic, ings);
    WantedIsGood(cluster, ic, ings, certificate, authority);
    ghost var before := c.server;
    ghost var steps1, states1 := RunPass(c, cluster, ic, ings, certificate, authority, initial, first);
    ghost var mid := c.server;
    RunRoutingPass(c, cluster, ic, ings, d, routes);
    ghost var between := c.server;
    ghost var steps2, states2 := RunPass(c, cluster, ic, ings, certificate, authority, initial, second);
    if ClassUnblocked(d, before) {
      PassedIsRoutable(d, routes, steps1, states1, before, mid);
      PassesConverge(d, routes, steps1, states1, steps2, states2, before, mid, between, c.server);
    } else {
      BlockedDoesNotConverge(d, routes, before, mid, between, c.server);
    }
  }

  // ---- A class that always converges --------------------------------------------------------

  /** An ingress without annotations and TLS, whose paths name service ports by number. */
  ghost predicate Plain(ing: Ingress) {
    ing.notes == RoutingAgreement.NO_NOTES && ing.tls == [] && forall p :: p in BackedPaths(ing.rules) ==> p.service.portNumber != 0
  }

  lemma PlainVisits(cluster: Cluster, ing: Ingress)
    requires Plain(ing)
    ensures AllResolve(cluster, ing, BackedPaths(ing.rules)) && GroupVisits(cluster, [ing]) == Visits(cluster, ing)
    ensures forall v :: v in Visits(cluster, ing) ==> v.ing == ing && v.tls == [] && v.bs != DEFAULT_BACKEND_SET
  {
    assert CertificateIds(ing) == [] && !IsTcp(ing);
    assert [ing][..0] == [] && GroupVisits(cluster, [ing]) == [] + Visits(cluster, ing);
    forall v | v in Visits(cluster, ing) ensures v.ing == ing && v.tls == [] && v.bs != DEFAULT_BACKEND_SET {
      PathVisitsMember(cluster, ing, BackedPaths(ing.rules), v);
      LocatedIsNotDefault(cluster, ing, v.path);
    }
  }

  lemma PlainIsConsistent(cluster: Cluster, ing: Ingress)
    requires Plain(ing)
    ensures StateTheorems.Acceptable(cluster, [ing])
  {
    var vs := Visits(cluster, ing);
    PlainVisits(cluster, ing);
    assert !IsTcp(ing);
    forall v | v in vs ensures Valid(v) {}
    forall i, j | 0 <= i < j < |vs| ensures Compatible(vs[i], vs[j]) {
      assert vs[i] in vs && vs[j] in vs;
    }
    forall p: int ensures Artifacts(vs, p) == {} {
      NoArtifacts(vs, p);
    }
  }

  lemma SingleGroup(ic: IngressClass, ing: Ingress)
    requires Counts(ic, ing)
    ensures SortedGroup(ic, [ing]) == [ing]
  {
    assert [ing][1..] == [] && Group(ic, []) == [];
    assert Group(ic, [ing]) == [ing];
    assert Sorting.Sort(IngressLess, [ing]) == Sorting.Insert(IngressLess, ing, []);
  }

  lemma PlainSet(vs: seq<Visit>, c: ClassState, authority: AuthorityOf, n: string)
    requires TlsConfigsHold(vs, c.backendTls) && forall v :: v in vs ==> v.tls == []
    ensures SetGoal(c, authority, n).ssl.None?
  {
    KeysMember(vs, BringsTls, SetOf, n);
  }

  lemma PlainPort(vs: seq<Visit>, c: ClassState, certificate: CertificateOf, p: int)
    requires ProtocolsHold(vs, c.protocols) && ListenerTlsHolds(vs, c.listenerTls) && c.listeners == Ports(vs) && p in c.listeners
    requires forall v :: v in vs ==> Plain(v.ing) && v.tls == []
    ensures PortGoal(c, certificate, p).ssl.None? && PortGoal(c, certificate, p).protocol == HTTP
  {
    NoArtifacts(vs, p);
    KeysMember(vs, Any, PortOf, p);
    var v :| v in vs && Any(v) && PortOf(v) == p;
    assert c.protocols[p] == Protocol(v.ing);
  }

  lemma PlainIsUnblocked(cluster: Cluster, ing: Ingress, c: ClassState, certificate: CertificateOf, authority: AuthorityOf, lb: LoadBalancer)
    requires Plain(ing) && StateHolds(cluster, [ing], GroupVisits(cluster, [ing]), c)
    ensures ClassUnblocked(DesiredOf(c, certificate, authority), lb)
  {
    var vs, d := Visits(cluster, ing), DesiredOf(c, certificate, authority);
    PlainVisits(cluster, ing);
    forall n | n in d.sets ensures !SetIsBlocked(d, n, lb) {
      PlainSet(vs, c, authority, n);
    }
    forall p | p in d.listeners ensures !PortIsBlocked(d, p, lb) {
      PlainPort(vs, c, certificate, p);
    }
  }

  lemma PlainIsAcceptable(cluster: Cluster, ic: IngressClass, ing: Ingress)
    requires Plain(ing) && Counts(ic, ing)
    ensures AcceptableClass(cluster, ic, [ing])
  {
    SingleGroup(ic, ing);
    PlainIsConsistent(cluster, ing);
    BuildRefinesSpecification(cluster, ic, [ing]);
    assert !IsTcp(ing) && IsHttpBased(ing);
  }

  /** Such an ingress alone is a class that the builder accepts, and nothing in it is ever blocked. */
  lemma PlainClassIsUnblocked(cluster: Cluster, ic: IngressClass, ing: Ingress, certificate: CertificateOf, authority: AuthorityOf, lb: LoadBalancer)
    requires Plain(ing) && Counts(ic, ing)
    ensures AcceptableClass(cluster, ic, [ing]) && ClassUnblocked(Wanted(cluster, ic, [ing], certificate, authority), lb)
  {
    PlainIsAcceptable(cluster, ic, ing);
    SingleGroup(ic, ing);
    BuildRefinesSpecification(cluster, ic, [ing]);
    PlainIsUnblocked(cluster, ing, Build(cluster, ic, [ing]).value.group, certificate, authority, lb);
  }
}
